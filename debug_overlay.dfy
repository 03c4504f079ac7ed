/** The backend's debugging script: a cut-down copy of the filtergraph builder that
    only knows image overlays, the rewrite of asset overlay contents to the names
    the upload saved them under, and the scenario the script sets up. */
module DebugOverlay {
  import opened Wrappers
  import opened Wire
  import opened Strings
  import opened Rendering

  /** `job_id + "_asset_" + name`: the file name an uploaded asset is saved under. */
  function SavedAssetName(jobId: string, name: string): string {
    jobId + "_asset_" + name
  }

  /** The rewrite applies to an overlay whose "type" key is image or video (there is
      no default here) and that has a content key. */
  predicate Rewrites(ov: Meta) {
    ov.kind.Some? && IsAssetKind(ov.kind.value) && ov.content.Some?
  }

  function Rewrite(jobId: string, ov: Meta): (r: Meta)
    ensures Rewrites(ov) ==> r == ov.(content := Some(SavedAssetName(jobId, ov.content.value)))
    ensures !Rewrites(ov) ==> r == ov
  {
    if Rewrites(ov) then ov.(content := Some(SavedAssetName(jobId, ov.content.value))) else ov
  }

  function Rewritten(jobId: string, ovs: seq<Meta>): (rs: seq<Meta>)
    ensures |rs| == |ovs|
    ensures forall k :: 0 <= k < |ovs| ==> rs[k] == Rewrite(jobId, ovs[k])
  {
    seq(|ovs|, k requires 0 <= k < |ovs| => Rewrite(jobId, ovs[k]))
  }

  /** The rewrite loop: each asset overlay's content is replaced in place by its saved
      name; every other field and every other overlay stays as it was. */
  method RewriteContents(jobId: string, overlays: array<Meta>)
    modifies overlays
    ensures overlays[..] == Rewritten(jobId, old(overlays[..]))
  {
    for i := 0 to overlays.Length
      invariant forall k :: 0 <= k < i ==> overlays[k] == Rewrite(jobId, old(overlays[k]))
      invariant forall k :: i <= k < overlays.Length ==> overlays[k] == old(overlays[k])
    {
      var ov := overlays[i];
      if ov.kind.Some? && (ov.kind.value == "image" || ov.kind.value == "video") && ov.content.Some? {
        var inputFilename := ov.content.value;
        var savedFilename := jobId + "_asset_" + inputFilename;
        overlays[i] := ov.(content := Some(savedFilename));
      }
    }
  }

  /** What the debug builder sees of an overlay: an image overlay as it is, and any
      other one as an overlay of a kind that emits nothing, at the same position in
      the list (so the labels keep their overlay numbers). */
  function ImageOnly(ov: Meta): (m: Meta)
    ensures KindOf(ov) == "image" ==> m == ov
    ensures KindOf(ov) != "image" ==> forall fileMap :: !Emits(fileMap, m)
  {
    if KindOf(ov) == "image" then ov else ov.(kind := Some("none"))
  }

  function ImagesOnly(ovs: seq<Meta>): (ms: seq<Meta>)
    ensures |ms| == |ovs|
    ensures forall k :: 0 <= k < |ovs| ==> ms[k] == ImageOnly(ovs[k])
  {
    seq(|ovs|, k requires 0 <= k < |ovs| => ImageOnly(ovs[k]))
  }

  /** The debug script's build_filter_complex: the same image branch as the renderer's,
      no text or video branch, and only the joined filter string returned. */
  method DebugBuildFilterComplex(inputs: seq<string>, overlays: seq<Meta>) returns (filter: string)
    ensures filter == FilterComplex(FileMap(inputs), ImagesOnly(overlays))
  {
    var fileMap := FileMap(inputs);
    var masked := ImagesOnly(overlays);
    var chains: seq<Filter> := [];
    var current := Base;
    for i := 0 to |overlays|
      invariant chains == Build(fileMap, masked[..i]).filters
      invariant current == Build(fileMap, masked[..i]).current
    {
      BuildStep(fileMap, masked, i);
      var ov := overlays[i];
      var kind := ov.kind.GetOr("text");
      var start := ov.start.GetOr(0.0);
      var end := ov.end.GetOr(5.0);
      var x := Trunc(ov.x.GetOr(0.0));
      var y := Trunc(ov.y.GetOr(0.0));
      var outputLabel := Out(i + 1);
      if kind == "image" {
        if ov.content.None? || ov.content.value !in fileMap {
          assert chains + [] == chains;
          continue;
        }
        var inputIndex := fileMap[ov.content.value];
        if Truthy(ov.width) && Truthy(ov.height) {
          var scaledLabel := Scaled(i);
          chains := chains + [Scale(Input(inputIndex), ov.width.value, ov.height.value, scaledLabel)];
          chains := chains + [Overlay(current, scaledLabel, x, y, start, end, outputLabel)];
        } else {
          chains := chains + [Overlay(current, Input(inputIndex), x, y, start, end, outputLabel)];
        }
        current := outputLabel;
      } else {
        assert chains + [] == chains;
      }
    }
    assert masked[..|overlays|] == masked;
    filter := Join(";", Texts(chains));
  }

  /** On a list of image overlays the debug builder writes what the renderer writes. */
  lemma DebugAgreesOnImages(fileMap: map<string, nat>, ovs: seq<Meta>)
    requires forall k :: 0 <= k < |ovs| ==> KindOf(ovs[k]) == "image"
    ensures FilterComplex(fileMap, ImagesOnly(ovs)) == FilterComplex(fileMap, ovs)
  {
    assert ImagesOnly(ovs) == ovs;
  }

  /** The debug builder draws no text: a list with no image overlay gives an empty
      filter string, whatever the renderer would draw for it. */
  lemma DebugIgnoresOtherKinds(fileMap: map<string, nat>, ovs: seq<Meta>)
    requires forall k :: 0 <= k < |ovs| ==> KindOf(ovs[k]) != "image"
    ensures FilterComplex(fileMap, ImagesOnly(ovs)) == ""
  {
    FilterComplexEmptyIff(fileMap, ImagesOnly(ovs));
  }

  // ---------------------------------------------------------------------------
  // The script's scenario

  const TestJob := "test_job"

  /** One 100x100 image overlay at (50, 50) shown from 0 to 5 seconds. */
  const TestOverlay := Meta(Some("1"), Some("image"), Some("image_123.png"), Some(50.0), Some(50.0),
                            Some(0.0), Some(5.0), None, None, Some(100.0), Some(100.0))

  /** The main video and the one asset, saved as the upload saves them. */
  const TestInputs := ["uploads" + "/" + TestVideoName, "uploads" + "/" + TestAssetName]

  const TestVideoName := TestJob + "_video.mp4"
  const TestAssetName := SavedAssetName(TestJob, "image_123.png")

  lemma TestFileMap()
    ensures FileMap(TestInputs) == map[TestVideoName := 0, TestAssetName := 1]
  {
    BasenameAfterSlash("uploads", TestVideoName);
    BasenameAfterSlash("uploads", TestAssetName);
    assert TestInputs[..1] == [TestInputs[0]];
  }

  lemma TestRewritten()
    ensures Rewritten(TestJob, [TestOverlay]) == [TestOverlay.(content := Some(TestAssetName))]
  {
  }

  /** With the rewrite, the image is found as input 1 and scaled, then laid over the
      main video; without it, the picked name is no input's name and nothing is drawn. */
  lemma TestScenario()
    ensures Build(FileMap(TestInputs), Rewritten(TestJob, [TestOverlay])).filters ==
      [Scale(Input(1), 100.0, 100.0, Scaled(0)), Overlay(Base, Scaled(0), 50, 50, 0.0, 5.0, Out(1))]
    ensures FilterComplex(FileMap(TestInputs), [TestOverlay]) == ""
  {
    TestFileMap();
    TestRewritten();
    var fileMap := FileMap(TestInputs);
    var rewritten := [TestOverlay.(content := Some(TestAssetName))];
    assert rewritten[..0] == [] && [TestOverlay][..0] == [];
    assert "image_123.png" !in fileMap;
    FilterComplexEmptyIff(fileMap, [TestOverlay]);
  }
}
