/** The editor screen's state and its handlers: picking the base video, adding,
    updating, editing and deleting overlays, exporting, and the status poll's ticks.
    Each state setter of the screen is an assignment to a field; a picker result, a
    server response and a fresh id are parameters. */
module EditorScreen {
  import opened Wrappers
  import opened EditorStore
  import Polling
  import Wire

  /** The first asset a picker returned. */
  datatype Picked = Picked(uri: string, fileName: Option<string>)

  /** One `assets` part of the upload form. */
  datatype AssetPart = AssetPart(uri: Option<string>, name: string, mime: string)

  /** The upload form: the base video, the asset files, and the metadata array. */
  datatype UploadRequest = UploadRequest(video: string, assets: seq<AssetPart>, metadata: seq<Wire.Meta>)

  /** What the upload call gave: the new job's id, or an error with the response body's
      `detail` and the error's own message, when they exist. */
  datatype UploadOutcome =
    | Uploaded(jobId: string)
    | UploadFailed(detail: Option<string>, message: Option<string>)

  const DefaultUploadError := "Could not upload video. Please check your connection."

  function Truthy(s: Option<string>): bool {
    s.Some? && s.value != ""
  }

  /** `detail || message || default`. */
  function UploadErrorMessage(detail: Option<string>, message: Option<string>): (m: string)
    ensures m != ""
    ensures Truthy(detail) ==> m == detail.value
    ensures !Truthy(detail) && Truthy(message) ==> m == message.value
  {
    if Truthy(detail) then detail.value
    else if Truthy(message) then message.value
    else DefaultUploadError
  }

  /** The asset parts: one per image or video overlay, in list order, named after its
      content, with its preview uri and a type chosen by kind. */
  function AssetParts(overlays: seq<Overlay>): seq<AssetPart> {
    var assets := AssetOverlays(overlays);
    seq(|assets|, k requires 0 <= k < |assets| =>
      AssetPart(assets[k].uri, assets[k].content, if assets[k].kind.Video? then "video/mp4" else "image/png"))
  }

  /** The parts are named as the metadata's asset contents. */
  lemma AssetPartsNamed(overlays: seq<Overlay>)
    ensures var parts := AssetParts(overlays);
      && |parts| == |AssetOverlays(overlays)|
      && forall k :: 0 <= k < |parts| ==> parts[k].name == AssetNames(overlays)[k]
  {
  }

  class Screen {
    var videoUri: Option<string>
    var overlays: seq<Overlay>
    var selected: Option<string>
    var uploading: bool
    var processing: bool
    var jobId: Option<string>
    var downloadUrl: Option<string>
    var progress: real
    var alert: Option<Polling.Alert>
    // The status poll: the job it asks about, its tick counter, whether its
    // interval is set, and the number of status queries it sent.
    var pollJob: string
    var pollCount: nat
    var polling: bool
    var queries: nat

    /** The poll's view of the screen. */
    function PollView(): Polling.PollState
      reads this
    {
      Polling.PollState(pollCount, polling, processing, progress, downloadUrl, alert, queries)
    }

    /** A running poll keeps the screen in the processing state, and the counters stay
        within their bounds. */
    predicate Valid()
      reads this
    {
      (polling ==> processing) && Polling.Counted(PollView())
    }

    constructor()
      ensures Valid()
      ensures videoUri.None? && overlays == [] && selected.None? && jobId.None? && downloadUrl.None?
      ensures !uploading && !processing && !polling && progress == 0.0
    {
      videoUri, overlays, selected := None, [], None;
      uploading, processing := false, false;
      jobId, downloadUrl, progress, alert := None, None, 0.0, None;
      pollJob, pollCount, polling, queries := "", 0, false, 0;
    }

    /** The record the inspector shows: the selected one, if it is still in the list. */
    function Inspected(): Option<Overlay>
      reads this
    {
      if selected.Some? then Find(overlays, selected.value) else None
    }

    /** pickVideo: a picked video replaces the base video and clears the overlays, the
        job id and the download address; a cancelled picker changes nothing. */
    method PickVideo(picked: Option<Picked>)
      modifies this`videoUri, this`overlays, this`jobId, this`downloadUrl
      ensures picked.None? ==>
        videoUri == old(videoUri) && overlays == old(overlays) && jobId == old(jobId) && downloadUrl == old(downloadUrl)
      ensures picked.Some? ==> videoUri == Some(picked.value.uri) && overlays == [] && jobId.None? && downloadUrl.None?
    {
      if picked.Some? {
        videoUri := Some(picked.value.uri);
        overlays := [];
        jobId := None;
        downloadUrl := None;
      }
    }

    /** addTextOverlay: without a base video nothing happens; otherwise the default
        text record is appended and selected. */
    method AddTextOverlay(id: string)
      modifies this`overlays, this`selected
      ensures videoUri.None? ==> overlays == old(overlays) && selected == old(selected)
      ensures videoUri.Some? ==> overlays == old(overlays) + [NewTextOverlay(id)] && selected == Some(id)
    {
      if videoUri.None? {
        return;
      }
      var o := NewTextOverlay(id);
      overlays := overlays + [o];
      selected := Some(o.id);
    }

    /** addImageOverlay and addVideoOverlay: without a base video, or when the picker
        is cancelled, nothing happens; otherwise the asset's record is appended and
        selected. */
    method AddAssetOverlay(id: string, kind: Kind, picked: Option<Picked>)
      requires !kind.Text?
      modifies this`overlays, this`selected
      ensures videoUri.None? || picked.None? ==> overlays == old(overlays) && selected == old(selected)
      ensures videoUri.Some? && picked.Some? ==>
        overlays == old(overlays) + [NewAssetOverlay(id, kind, picked.value.fileName, picked.value.uri)]
        && selected == Some(id)
    {
      if videoUri.None? || picked.None? {
        return;
      }
      var o := NewAssetOverlay(id, kind, picked.value.fileName, picked.value.uri);
      overlays := overlays + [o];
      selected := Some(o.id);
    }

    /** updateOverlay, as the overlays' drag handler and the inspector call it. */
    method UpdateOverlay(id: string, p: Patch)
      modifies this`overlays
      ensures overlays == EditorStore.UpdateOverlay(old(overlays), id, p)
    {
      overlays := EditorStore.UpdateOverlay(overlays, id, p);
    }

    /** A touch on an overlay selects it. */
    method Select(id: string)
      modifies this`selected
      ensures selected == Some(id)
    {
      selected := Some(id);
    }

    /** One inspector control pressed on the shown record. */
    method EditSelected(e: Edit)
      requires Inspected().Some? && Offers(Inspected().value, e)
      modifies this`overlays
      ensures overlays == EditorStore.UpdateOverlay(old(overlays), old(selected).value, EditPatch(old(Inspected()).value, e))
    {
      var o := Find(overlays, selected.value).value;
      UpdateOverlay(selected.value, EditPatch(o, e));
    }

    /** The inspector's delete: every record with the selected id goes, and nothing is
        selected afterwards. */
    method DeleteSelected()
      requires Inspected().Some?
      modifies this`overlays, this`selected
      ensures overlays == DeleteById(old(overlays), old(selected).value) && selected.None?
      ensures forall o :: o in overlays <==> o in old(overlays) && o.id != old(selected).value
    {
      overlays := DeleteById(overlays, selected.value);
      forall o {
        DeleteByIdMembers(old(overlays), old(selected).value, o);
      }
      selected := None;
    }

    /** handleSubmit, with the upload call's outcome as a parameter. The export button
        is only enabled while nothing is uploading or processing. Without a base video
        nothing is sent; otherwise the form is built from the overlays, and on success
        the job id is kept and the status poll starts, while on failure an alert shows
        the error. */
    method HandleSubmit(outcome: UploadOutcome) returns (request: Option<UploadRequest>)
      requires Valid() && !uploading && !processing
      modifies this`uploading, this`processing, this`progress, this`jobId, this`alert,
               this`pollJob, this`pollCount, this`polling, this`queries
      ensures Valid()
      ensures videoUri.None? ==>
        && request.None? && PollView() == old(PollView()) && jobId == old(jobId)
        && uploading == old(uploading) && pollJob == old(pollJob)
      ensures videoUri.Some? ==> request == Some(UploadRequest(videoUri.value, AssetParts(overlays), Metadata(overlays)))
      ensures videoUri.Some? && outcome.Uploaded? ==>
        && jobId == Some(outcome.jobId) && pollJob == outcome.jobId && !uploading
        && PollView() == Polling.Start(downloadUrl, alert) && alert == old(alert)
      ensures videoUri.Some? && outcome.UploadFailed? ==>
        && jobId == old(jobId) && !uploading && !processing && !polling && progress == 0.0
        && alert == Some(Polling.Alert("Upload Failed", UploadErrorMessage(outcome.detail, outcome.message)))
    {
      if videoUri.None? {
        return None;
      }
      request := Some(UploadRequest(videoUri.value, AssetParts(overlays), Metadata(overlays)));
      uploading := true;
      progress := 0.0;
      UploadSettled(outcome);
    }

    /** The end of handleSubmit, once the upload call has answered: on success the job
        id is kept and the status poll starts; on failure an alert shows the error and
        the screen goes back to idle. */
    method UploadSettled(outcome: UploadOutcome)
      requires Valid() && uploading && !processing && progress == 0.0
      modifies this`uploading, this`processing, this`progress, this`jobId, this`alert,
               this`pollJob, this`pollCount, this`polling, this`queries
      ensures Valid()
      ensures outcome.Uploaded? ==>
        && jobId == Some(outcome.jobId) && pollJob == outcome.jobId && !uploading
        && PollView() == Polling.Start(downloadUrl, alert) && alert == old(alert)
      ensures outcome.UploadFailed? ==>
        && jobId == old(jobId) && !uploading && !processing && !polling && progress == 0.0
        && alert == Some(Polling.Alert("Upload Failed", UploadErrorMessage(outcome.detail, outcome.message)))
    {
      match outcome
      case Uploaded(id) =>
        jobId := Some(id);
        uploading := false;
        processing := true;
        pollJob, pollCount, polling, queries := id, 0, true, 0;
      case UploadFailed(detail, message) =>
        alert := Some(Polling.Alert("Upload Failed", UploadErrorMessage(detail, message)));
        uploading := false;
        progress := 0.0;
    }

    /** One tick of the status poll's interval: the screen moves exactly as the poll's
        tick function says, and nothing outside the poll's view changes. */
    method PollTick(reply: Polling.Reply)
      requires Valid() && polling
      modifies this`processing, this`progress, this`downloadUrl, this`alert, this`pollCount, this`polling, this`queries
      ensures Valid()
      ensures PollView() == Polling.Tick(old(PollView()), pollJob, reply)
    {
      Polling.TickCounted(PollView(), pollJob, reply);
      pollCount := pollCount + 1;
      if pollCount > Polling.MaxPolls {
        polling := false;
        processing := false;
        progress := 0.0;
        alert := Some(Polling.TimeoutAlert);
        return;
      }
      queries := queries + 1;
      match reply
      case QueryFailed =>
      case Answer(status, prog, error) =>
        if prog.Some? {
          progress := prog.value;
        }
        if status == "completed" {
          polling := false;
          processing := false;
          progress := 100.0;
          downloadUrl := Some(Polling.ResultUrl(pollJob));
          alert := Some(Polling.SuccessAlert);
        } else if status == "failed" {
          polling := false;
          processing := false;
          progress := 0.0;
          alert := Some(Polling.Alert("Failed", Polling.FailureMessage(error)));
        }
    }
  }
}
