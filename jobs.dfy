/** The backend's job table: the in-memory map from job id to job record that the
    upload endpoint fills, the background render task advances, and the status and
    result endpoints read. The renderer itself is an outcome given as a parameter:
    the progress values it reports, then success or an error message. */
module Jobs {
  import opened Wrappers
  import Wire

  datatype Status = Queued | Processing | Completed | Failed

  function StatusName(s: Status): string {
    match s
    case Queued => "queued"
    case Processing => "processing"
    case Completed => "completed"
    case Failed => "failed"
  }

  /** One job record; `resultPath` and `error` are keys the record may not have yet. */
  datatype Job = Job(
    id: string,
    status: Status,
    originalVideo: string,
    overlays: seq<Wire.Meta>,
    progress: real,
    resultPath: Option<string>,
    error: Option<string>)

  /** The metadata form field after JSON parsing: the overlay list, or the parser's
      error message. */
  datatype Metadata = Parsed(overlays: seq<Wire.Meta>) | Malformed(message: string)

  /** What the upload endpoint answers: the new job's id with its status, or an error. */
  datatype UploadResponse =
    | Accepted(jobId: string, status: Status)
    | Rejected(code: nat, error: string)

  /** The background task the upload schedules, with its arguments. */
  datatype Task = Task(jobId: string, videoPath: string, assetPaths: seq<string>, overlays: seq<Wire.Meta>)

  /** What one render gave: the progress values it reported, then success, or the
      error it raised. */
  datatype RenderOutcome =
    | Rendered(reports: seq<real>)
    | RenderFailed(reports: seq<real>, message: string)

  datatype StatusResponse =
    | StatusNotFound
    | StatusBody(jobId: string, status: Status, progress: real, error: Option<string>)

  datatype ResultResponse =
    | ResultNotFound
    | NotReady(status: Status)
    | ResultFile(path: string, mediaType: string, filename: string)

  function VideoPath(jobId: string, filename: string): string {
    "uploads/" + jobId + "_" + filename
  }

  function AssetPath(jobId: string, filename: string): string {
    "uploads/" + jobId + "_asset_" + filename
  }

  function AssetPaths(jobId: string, filenames: seq<string>): (paths: seq<string>)
    ensures |paths| == |filenames|
  {
    seq(|filenames|, k requires 0 <= k < |filenames| => AssetPath(jobId, filenames[k]))
  }

  function ResultPath(jobId: string): string {
    "results/" + jobId + ".mp4"
  }

  /** The HTTP status code each answer is sent with. */
  function StatusCode(r: StatusResponse): nat {
    if r.StatusNotFound? then 404 else 200
  }

  function ResultCode(r: ResultResponse): nat {
    match r
    case ResultNotFound => 404
    case NotReady(_) => 400
    case ResultFile(_, _, _) => 200
  }

  /** The last progress value of a list of reports, or `start` when there is none. */
  function LastOr(start: real, reports: seq<real>): real {
    if reports == [] then start else reports[|reports| - 1]
  }

  /** A record as it may be filed under `id`. */
  predicate Filed(id: string, job: Job) {
    && job.id == id
    && (job.status == Completed ==> job.resultPath == Some(ResultPath(id)))
    && (job.status == Failed ==> job.error.Some?)
  }

  class JobTable {
    var jobs: map<string, Job>
    /** The files written under `uploads/`, in the order they were written. */
    var saved: seq<string>

    /** Every record is filed under its own id, a completed job names its result file,
        and a failed job carries its error. */
    predicate Valid()
      reads this
    {
      forall id :: id in jobs ==> Filed(id, jobs[id])
    }

    constructor()
      ensures jobs == map[] && saved == [] && Valid()
    {
      jobs := map[];
      saved := [];
    }

    /** get_status: 404 for an unknown id, otherwise the stored status and progress and
        the error, if any. */
    function GetStatus(id: string): (r: StatusResponse)
      reads this
      ensures r.StatusNotFound? <==> id !in jobs
      ensures r.StatusBody? ==>
        r.jobId == id && r.status == jobs[id].status && r.progress == jobs[id].progress && r.error == jobs[id].error
    {
      if id !in jobs then StatusNotFound
      else StatusBody(id, jobs[id].status, jobs[id].progress, jobs[id].error)
    }

    /** get_result: 404 for an unknown id, 400 with the status until the job has
        completed, and then its result file. */
    function GetResult(id: string): (r: ResultResponse)
      requires Valid()
      reads this
      ensures ResultCode(r) == 404 <==> id !in jobs
      ensures ResultCode(r) == 400 <==> id in jobs && jobs[id].status != Completed
      ensures r.ResultFile? ==> r == ResultFile(ResultPath(id), "video/mp4", "edited_video.mp4")
    {
      if id !in jobs then ResultNotFound
      else if jobs[id].status != Completed then NotReady(jobs[id].status)
      else ResultFile(jobs[id].resultPath.value, "video/mp4", "edited_video.mp4")
    }

    /** update_job_progress: only the progress of a known job changes. */
    method UpdateJobProgress(id: string, progress: real)
      requires Valid()
      modifies this`jobs
      ensures Valid()
      ensures id in old(jobs) ==> jobs == old(jobs)[id := old(jobs)[id].(progress := progress)]
      ensures id !in old(jobs) ==> jobs == old(jobs)
    {
      if id in jobs {
        jobs := jobs[id := jobs[id].(progress := progress)];
      }
    }

    /** The render's progress callback, once per value it reports: the job's progress
        ends at the last value, or stays where it was when none is reported. */
    method ApplyReports(id: string, reports: seq<real>)
      requires Valid() && id in jobs
      modifies this`jobs
      ensures Valid()
      ensures jobs == old(jobs)[id := old(jobs)[id].(progress := LastOr(old(jobs)[id].progress, reports))]
      ensures GetStatus(id) ==
        StatusBody(id, old(jobs)[id].status, LastOr(old(jobs)[id].progress, reports), old(jobs)[id].error)
    {
      for i := 0 to |reports|
        invariant Valid()
        invariant jobs == old(jobs)[id := old(jobs)[id].(progress := LastOr(old(jobs)[id].progress, reports[..i]))]
      {
        UpdateJobProgress(id, reports[i]);
        assert reports[..i + 1][..i] == reports[..i];
      }
      assert reports[..|reports|] == reports;
    }

    /** The start of process_video: the job goes to processing at 0%, which is what a
        status query answers until the render reports progress. */
    method BeginProcessing(id: string)
      requires Valid() && id in jobs
      modifies this`jobs
      ensures Valid()
      ensures jobs == old(jobs)[id := old(jobs)[id].(status := Processing, progress := 0.0)]
      ensures GetStatus(id) == StatusBody(id, Processing, 0.0, old(jobs)[id].error)
      ensures GetResult(id) == NotReady(Processing)
    {
      jobs := jobs[id := jobs[id].(status := Processing, progress := 0.0)];
    }

    /** The end of process_video, once the render has returned or raised: completed at
        100% with its result file, or failed with the error and the progress it had. */
    method FinishRender(id: string, outcome: RenderOutcome)
      requires Valid() && id in jobs
      modifies this`jobs
      ensures Valid()
      ensures outcome.Rendered? ==>
        jobs == old(jobs)[id := old(jobs)[id].(status := Completed, progress := 100.0, resultPath := Some(ResultPath(id)))]
      ensures outcome.RenderFailed? ==>
        jobs == old(jobs)[id := old(jobs)[id].(status := Failed, error := Some(outcome.message))]
      ensures GetStatus(id).status == (if outcome.Rendered? then Completed else Failed)
      ensures outcome.Rendered? <==> GetResult(id).ResultFile?
    {
      match outcome
      case Rendered(_) =>
        jobs := jobs[id := jobs[id].(status := Completed, progress := 100.0, resultPath := Some(ResultPath(id)))];
      case RenderFailed(_, message) =>
        jobs := jobs[id := jobs[id].(status := Failed, error := Some(message))];
    }

    /** process_video: the job goes to processing at 0% (BeginProcessing), takes every
        progress value the render reports (ApplyReports), and ends completed at 100% with
        its result file, or failed with the error and the last progress reported
        (FinishRender). No other job changes. */
    method ProcessVideo(id: string, outcome: RenderOutcome)
      requires Valid() && id in jobs
      modifies this`jobs
      ensures Valid()
      ensures jobs.Keys == old(jobs).Keys
      ensures forall other :: other in jobs && other != id ==> jobs[other] == old(jobs)[other]
      ensures outcome.Rendered? ==>
        jobs[id] == old(jobs)[id].(status := Completed, progress := 100.0, resultPath := Some(ResultPath(id)))
      ensures outcome.RenderFailed? ==>
        jobs[id] == old(jobs)[id].(status := Failed, progress := LastOr(0.0, outcome.reports), error := Some(outcome.message))
      ensures GetStatus(id).status == (if outcome.Rendered? then Completed else Failed)
      ensures outcome.Rendered? <==> GetResult(id).ResultFile?
    {
      BeginProcessing(id);
      ApplyReports(id, outcome.reports);
      FinishRender(id, outcome);
    }

    /** upload_video, with a fresh job id. The video and then every asset are saved
        under `uploads/` with the job id in their names; then a metadata field that is
        not JSON gives 400 and no job, and otherwise a queued job at 0% holding the
        overlays as received is filed and its render task scheduled. */
    method UploadVideo(jobId: string, videoName: string, assetNames: seq<string>, metadata: Metadata)
      returns (response: UploadResponse, task: Option<Task>)
      requires Valid() && jobId !in jobs
      modifies this`jobs, this`saved
      ensures Valid()
      ensures saved == old(saved) + [VideoPath(jobId, videoName)] + AssetPaths(jobId, assetNames)
      ensures metadata.Malformed? ==>
        && response == Rejected(400, "Invalid metadata JSON: " + metadata.message)
        && jobs == old(jobs) && task.None?
      ensures metadata.Parsed? ==>
        && response == Accepted(jobId, Queued)
        && jobs == old(jobs)[jobId := Job(jobId, Queued, VideoPath(jobId, videoName), metadata.overlays, 0.0, None, None)]
        && task == Some(Task(jobId, VideoPath(jobId, videoName), AssetPaths(jobId, assetNames), metadata.overlays))
        && GetStatus(jobId) == StatusBody(jobId, Queued, 0.0, None)
        && GetResult(jobId) == NotReady(Queued)
    {
      var videoPath := VideoPath(jobId, videoName);
      saved := saved + [videoPath];
      var assetPaths: seq<string> := [];
      for i := 0 to |assetNames|
        invariant assetPaths == AssetPaths(jobId, assetNames[..i])
        invariant saved == old(saved) + [videoPath] + assetPaths
        invariant jobs == old(jobs)
      {
        var path := AssetPath(jobId, assetNames[i]);
        saved := saved + [path];
        assetPaths := assetPaths + [path];
      }
      assert assetNames[..|assetNames|] == assetNames;
      match metadata
      case Malformed(message) =>
        return Rejected(400, "Invalid metadata JSON: " + message), None;
      case Parsed(overlays) =>
        jobs := jobs[jobId := Job(jobId, Queued, videoPath, overlays, 0.0, None, None)];
        response := Accepted(jobId, Queued);
        task := Some(Task(jobId, videoPath, assetPaths, overlays));
    }
  }
}
