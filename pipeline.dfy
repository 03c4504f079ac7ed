/** How the pieces meet: the files the upload endpoint saves become the renderer's
    inputs, the metadata entries name the assets the renderer looks up, and the
    status the job table reports is the one the editor's poll reads. */
module Pipeline {
  import opened Wrappers
  import opened Wire
  import opened Rendering
  import Jobs
  import DebugOverlay
  import EditorStore
  import Polling

  /** The inputs process_video hands to the renderer for a scheduled task: the saved
      video first, then the saved assets in upload order. */
  function RenderInputs(task: Jobs.Task): (inputs: seq<string>)
    ensures |inputs| == 1 + |task.assetPaths|
  {
    [task.videoPath] + task.assetPaths
  }

  /** The task the upload endpoint schedules for these files and this metadata. */
  function UploadTask(jobId: string, videoName: string, assetNames: seq<string>, ovs: seq<Meta>): Jobs.Task {
    Jobs.Task(jobId, Jobs.VideoPath(jobId, videoName), Jobs.AssetPaths(jobId, assetNames), ovs)
  }

  predicate StartsWith(s: string, prefix: string) {
    |prefix| <= |s| && s[..|prefix|] == prefix
  }

  /** Names that are one path component: the job id and the uploaded file names. */
  predicate PlainNames(jobId: string, videoName: string, assetNames: seq<string>) {
    '/' !in jobId && '/' !in videoName && forall k :: 0 <= k < |assetNames| ==> '/' !in assetNames[k]
  }

  /** Every input of an upload's render has a basename that starts with the job id:
      the video is `{id}_{name}` and each asset `{id}_asset_{name}`. */
  lemma InputBasenames(jobId: string, videoName: string, assetNames: seq<string>)
    requires PlainNames(jobId, videoName, assetNames)
    ensures var inputs := RenderInputs(UploadTask(jobId, videoName, assetNames, []));
      && Basename(inputs[0]) == jobId + "_" + videoName
      && forall k :: 0 <= k < |assetNames| ==> Basename(inputs[k + 1]) == DebugOverlay.SavedAssetName(jobId, assetNames[k])
  {
    var inputs := RenderInputs(UploadTask(jobId, videoName, assetNames, []));
    assert inputs[0] == "uploads" + "/" + (jobId + "_" + videoName);
    BasenameAfterSlash("uploads", jobId + "_" + videoName);
    forall k | 0 <= k < |assetNames|
      ensures Basename(inputs[k + 1]) == DebugOverlay.SavedAssetName(jobId, assetNames[k])
    {
      var saved := DebugOverlay.SavedAssetName(jobId, assetNames[k]);
      assert inputs[k + 1] == "uploads" + "/" + saved;
      assert saved == jobId + ("_asset_" + assetNames[k]);
      BasenameAfterSlash("uploads", saved);
    }
  }

  lemma StartsWithAppend(a: string, b: string)
    ensures StartsWith(a + b, a)
  {
    assert (a + b)[..|a|] == a;
  }

  /** Every input of an upload's render is named after the job. */
  lemma InputStartsWithJob(jobId: string, videoName: string, assetNames: seq<string>, k: nat)
    requires PlainNames(jobId, videoName, assetNames) && k <= |assetNames|
    ensures StartsWith(Basename(RenderInputs(UploadTask(jobId, videoName, assetNames, []))[k]), jobId)
  {
    var inputs := RenderInputs(UploadTask(jobId, videoName, assetNames, []));
    if k == 0 {
      var name := jobId + ("_" + videoName);
      assert inputs[0] == "uploads" + "/" + name;
      BasenameAfterSlash("uploads", name);
      StartsWithAppend(jobId, "_" + videoName);
    } else {
      var name := jobId + ("_asset_" + assetNames[k - 1]);
      assert inputs[k] == "uploads" + "/" + name;
      BasenameAfterSlash("uploads", name);
      StartsWithAppend(jobId, "_asset_" + assetNames[k - 1]);
    }
  }

  /** As written: an overlay content that does not start with the job id is the
      basename of no input, so the renderer's file map has no entry for it. */
  lemma ContentNotFoundAsWritten(jobId: string, videoName: string, assetNames: seq<string>, name: string)
    requires PlainNames(jobId, videoName, assetNames) && !StartsWith(name, jobId)
    ensures name !in FileMap(RenderInputs(UploadTask(jobId, videoName, assetNames, [])))
  {
    var inputs := RenderInputs(UploadTask(jobId, videoName, assetNames, []));
    forall k | 0 <= k < |inputs|
      ensures Basename(inputs[k]) != name
    {
      InputStartsWithJob(jobId, videoName, assetNames, k);
    }
    FileMapLookup(inputs, name);
  }

  /** As written, the stored metadata is rendered as received, so no image or video
      overlay of an upload is drawn (unless the user's own file name happens to start
      with the job id). */
  lemma UploadDrawsNoAssets(jobId: string, videoName: string, assetNames: seq<string>, ovs: seq<Meta>)
    requires PlainNames(jobId, videoName, assetNames)
    requires forall k :: 0 <= k < |ovs| && ovs[k].content.Some? ==> !StartsWith(ovs[k].content.value, jobId)
    ensures var task := UploadTask(jobId, videoName, assetNames, ovs);
      forall k :: 0 <= k < |ovs| && IsAssetKind(KindOf(ovs[k])) ==> !Emits(FileMap(RenderInputs(task)), ovs[k])
  {
    forall k | 0 <= k < |ovs| && IsAssetKind(KindOf(ovs[k])) && ovs[k].content.Some?
      ensures ovs[k].content.value !in FileMap(RenderInputs(UploadTask(jobId, videoName, assetNames, [])))
    {
      ContentNotFoundAsWritten(jobId, videoName, assetNames, ovs[k].content.value);
    }
  }

  /** As written, an export with only image and video overlays renders with an empty
      filtergraph, which makes the renderer copy the video unchanged. */
  lemma AssetOnlyExportCopiesAsWritten(jobId: string, videoName: string, assetNames: seq<string>, ovs: seq<Meta>)
    requires PlainNames(jobId, videoName, assetNames)
    requires forall k :: 0 <= k < |ovs| ==> IsAssetKind(KindOf(ovs[k]))
    requires forall k :: 0 <= k < |ovs| && ovs[k].content.Some? ==> !StartsWith(ovs[k].content.value, jobId)
    ensures var task := UploadTask(jobId, videoName, assetNames, ovs);
      FilterComplex(FileMap(RenderInputs(task)), task.overlays) == ""
  {
    var task := UploadTask(jobId, videoName, assetNames, ovs);
    UploadDrawsNoAssets(jobId, videoName, assetNames, ovs);
    FilterComplexEmptyIff(FileMap(RenderInputs(task)), ovs);
  }

  /** The corrected task: the metadata's asset contents renamed to the names the
      upload saved them under before the render is scheduled. */
  function CorrectedTask(task: Jobs.Task): (t: Jobs.Task)
    ensures t.jobId == task.jobId && t.videoPath == task.videoPath && t.assetPaths == task.assetPaths
    ensures t.overlays == DebugOverlay.Rewritten(task.jobId, task.overlays)
  {
    task.(overlays := DebugOverlay.Rewritten(task.jobId, task.overlays))
  }

  /** With the rewrite, an image or video entry whose content names an uploaded file
      is drawn, from that file: its lookup gives an asset input, never the main video. */
  lemma RenamedAssetFound(jobId: string, videoName: string, assetNames: seq<string>, ovs: seq<Meta>, k: nat)
    requires PlainNames(jobId, videoName, assetNames)
    requires k < |ovs| && DebugOverlay.Rewrites(ovs[k]) && ovs[k].content.value in assetNames
    ensures var task := CorrectedTask(UploadTask(jobId, videoName, assetNames, ovs));
      var fileMap := FileMap(RenderInputs(task));
      var r := task.overlays[k];
      && Emits(fileMap, r)
      && 1 <= fileMap[r.content.value]
      && Basename(RenderInputs(task)[fileMap[r.content.value]]) == DebugOverlay.SavedAssetName(jobId, ovs[k].content.value)
  {
    var task := CorrectedTask(UploadTask(jobId, videoName, assetNames, ovs));
    var inputs := RenderInputs(task);
    assert inputs == RenderInputs(UploadTask(jobId, videoName, assetNames, []));
    var name := ovs[k].content.value;
    var saved := DebugOverlay.SavedAssetName(jobId, name);
    var j :| 0 <= j < |assetNames| && assetNames[j] == name;
    InputBasenames(jobId, videoName, assetNames);
    assert Basename(inputs[j + 1]) == saved;
    FileMapLookup(inputs, saved);
  }

  /** Rewrites picks exactly the entries AssetContents lists: each has its content among them. */
  lemma {:induction false} RewrittenContentsListed(ms: seq<Meta>, k: nat)
    requires k < |ms| && DebugOverlay.Rewrites(ms[k])
    ensures ms[k].content.value in EditorStore.AssetContents(ms)
    decreases |ms|
  {
    var n := |ms| - 1;
    if k < n {
      RewrittenContentsListed(ms[..n], k);
    }
  }

  /** End to end, with the rewrite: for the editor's overlays, every image and video
      entry of the metadata it sends names a file it uploads, and so is drawn. */
  lemma ExportDrawsEveryAsset(jobId: string, videoName: string, overlays: seq<EditorStore.Overlay>, k: nat)
    requires PlainNames(jobId, videoName, EditorStore.AssetNames(overlays))
    requires k < |overlays| && !overlays[k].kind.Text?
    ensures var ms := EditorStore.Metadata(overlays);
      var task := CorrectedTask(UploadTask(jobId, videoName, EditorStore.AssetNames(overlays), ms));
      Emits(FileMap(RenderInputs(task)), task.overlays[k])
  {
    var ms := EditorStore.Metadata(overlays);
    var names := EditorStore.AssetNames(overlays);
    assert DebugOverlay.Rewrites(ms[k]);
    RewrittenContentsListed(ms, k);
    EditorStore.AssetNamesMatchMetadata(overlays);
    RenamedAssetFound(jobId, videoName, names, ms, k);
  }

  // ---------------------------------------------------------------------------
  // The status the poll reads

  /** The poll, within its 300 ticks, stops on the job table's status exactly when
      the job has completed or failed. */
  lemma PollStopsOnFinalStatus(s: Polling.PollState, id: string, status: Jobs.Status,
                               progress: Option<real>, error: Option<string>)
    requires s.active && s.count < Polling.MaxPolls
    ensures var t := Polling.Tick(s, id, Polling.Answer(Jobs.StatusName(status), progress, error));
      !t.active <==> (status == Jobs.Completed || status == Jobs.Failed)
  {
    var name := Jobs.StatusName(status);
    if status == Jobs.Queued || status == Jobs.Processing {
      assert name[0] != "completed"[0] && name[0] != "failed"[0];
      Polling.TickInProgress(s, id, name, progress, error);
    }
  }
}
