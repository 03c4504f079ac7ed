/** The status poll the editor runs after an upload: every tick counts itself, gives up
    after 300 ticks, and otherwise asks the backend for the job's status and stops on
    `completed` or `failed`. One tick is one atomic step here; the two-second timer
    only decides when the next tick comes. */
module Polling {
  import opened Wrappers

  const MaxPolls: nat := 300
  const ApiUrl := "http://192.168.29.117:8000"

  /** What one status query gave: no answer (a network or HTTP error, which the poll
      ignores), or the body of `/status/{id}`. */
  datatype Reply =
    | QueryFailed
    | Answer(status: string, progress: Option<real>, error: Option<string>)

  datatype Alert = Alert(title: string, message: string)

  /** The part of the screen's state the poll reads and writes, with the number of
      ticks so far (`count`), whether the interval is still set (`active`), and the
      number of status queries sent (`queries`). `alert` is the last alert shown. */
  datatype PollState = PollState(
    count: nat,
    active: bool,
    processing: bool,
    progress: real,
    downloadUrl: Option<string>,
    alert: Option<Alert>,
    queries: nat)

  const TimeoutAlert := Alert("Timeout", "Video processing is taking too long. Please try again.")
  const SuccessAlert := Alert("Success", "Video rendering complete! Tap Download to save.")
  const DefaultFailure := "Video rendering failed. Please try again."

  /** The address the result of job `id` is downloaded from. */
  function ResultUrl(id: string): string {
    ApiUrl + "/result/" + id
  }

  /** `error || default`: the server's message unless it is missing or empty. */
  function FailureMessage(error: Option<string>): (m: string)
    ensures m != ""
    ensures error.Some? && error.value != "" ==> m == error.value
  {
    if error.Some? && error.value != "" then error.value else DefaultFailure
  }

  /** One tick of the interval for job `id`. */
  function Tick(s: PollState, id: string, reply: Reply): PollState
    requires s.active
  {
    var count := s.count + 1;
    if count > MaxPolls then
      s.(count := count, active := false, processing := false, progress := 0.0, alert := Some(TimeoutAlert))
    else
      var asked := s.(count := count, queries := s.queries + 1);
      match reply
      case QueryFailed => asked
      case Answer(status, prog, error) =>
        var seen := asked.(progress := prog.GetOr(s.progress));
        if status == "completed" then
          seen.(active := false, processing := false, progress := 100.0,
                downloadUrl := Some(ResultUrl(id)), alert := Some(SuccessAlert))
        else if status == "failed" then
          seen.(active := false, processing := false, progress := 0.0,
                alert := Some(Alert("Failed", FailureMessage(error))))
        else seen
  }

  /** The state right after the upload succeeded and the interval was set. */
  function Start(downloadUrl: Option<string>, alert: Option<Alert>): (s: PollState)
    ensures s.active && s.processing && s.count == 0 && s.queries == 0 && s.progress == 0.0
  {
    PollState(0, true, true, 0.0, downloadUrl, alert, 0)
  }

  /** The ticks that happen while the interval is set, one reply per tick; once the
      interval is cleared the remaining replies are never asked for. */
  function Run(s: PollState, id: string, replies: seq<Reply>): PollState
    decreases |replies|
  {
    if replies == [] || !s.active then s
    else Run(Tick(s, id, replies[0]), id, replies[1..])
  }

  /** The counters the interval keeps: no query once the count passes 300, and the
      interval is cleared by then. */
  predicate Counted(s: PollState) {
    s.queries <= s.count && s.queries <= MaxPolls && s.count <= MaxPolls + 1
    && (s.active ==> s.count <= MaxPolls)
  }

  /** A tick that finds the count past 300 stops everything before any query. */
  lemma TickTimeout(s: PollState, id: string, reply: Reply)
    requires s.active && s.count >= MaxPolls
    ensures var t := Tick(s, id, reply);
      !t.active && !t.processing && t.progress == 0.0 && t.alert == Some(TimeoutAlert)
      && t.queries == s.queries && t.downloadUrl == s.downloadUrl
  {
  }

  /** A failed query changes nothing but the two counters. */
  lemma TickQueryFailed(s: PollState, id: string)
    requires s.active && s.count < MaxPolls
    ensures Tick(s, id, QueryFailed) == s.(count := s.count + 1, queries := s.queries + 1)
  {
  }

  /** A reply that is neither completed nor failed keeps the poll going and takes the
      reported progress when there is one. */
  lemma TickInProgress(s: PollState, id: string, status: string, prog: Option<real>, error: Option<string>)
    requires s.active && s.count < MaxPolls && status != "completed" && status != "failed"
    ensures var t := Tick(s, id, Answer(status, prog, error));
      t.active && t.processing == s.processing && t.downloadUrl == s.downloadUrl && t.alert == s.alert
      && t.progress == (if prog.Some? then prog.value else s.progress)
  {
  }

  lemma TickCounted(s: PollState, id: string, reply: Reply)
    requires s.active && Counted(s)
    ensures Counted(Tick(s, id, reply))
  {
  }

  /** How a poll that stopped ended: completed with the download address set, failed
      with the server's message or the default, or timed out after 300 ticks. */
  predicate Ended(s: PollState, id: string) {
    && !s.active && !s.processing
    && (|| (s.progress == 100.0 && s.downloadUrl == Some(ResultUrl(id)) && s.alert == Some(SuccessAlert))
        || (s.progress == 0.0 && s.alert.Some? && s.alert.value.title == "Failed" && s.alert.value.message != "")
        || (s.progress == 0.0 && s.alert == Some(TimeoutAlert) && s.count == MaxPolls + 1))
  }

  lemma TickEnds(s: PollState, id: string, reply: Reply)
    requires s.active && Counted(s)
    ensures var t := Tick(s, id, reply); !t.active ==> Ended(t, id)
  {
  }

  /** Whatever the replies, the counters stay within their bounds and, once the
      interval is cleared, the state is one of the three endings. */
  lemma {:induction false} RunCounted(s: PollState, id: string, replies: seq<Reply>)
    requires Counted(s) && (!s.active ==> Ended(s, id))
    ensures var e := Run(s, id, replies); Counted(e) && (!e.active ==> Ended(e, id))
    decreases |replies|
  {
    if replies != [] && s.active {
      TickCounted(s, id, replies[0]);
      TickEnds(s, id, replies[0]);
      RunCounted(Tick(s, id, replies[0]), id, replies[1..]);
    }
  }

  /** The poll asks at most 300 times, has stopped after 301 ticks whatever the
      server answers, and then ends in one of the three ways. */
  lemma {:induction false} PollTerminates(downloadUrl: Option<string>, alert: Option<Alert>, id: string, replies: seq<Reply>)
    ensures var e := Run(Start(downloadUrl, alert), id, replies);
      && e.queries <= MaxPolls
      && (|replies| > MaxPolls ==> !e.active)
      && (!e.active ==> Ended(e, id))
  {
    var s := Start(downloadUrl, alert);
    RunCounted(s, id, replies);
    RunStops(s, id, replies);
  }

  /** Each tick of an active poll moves the count on by one, so enough ticks clear it. */
  lemma {:induction false} RunStops(s: PollState, id: string, replies: seq<Reply>)
    requires Counted(s)
    ensures |replies| > MaxPolls - s.count ==> !Run(s, id, replies).active
    decreases |replies|
  {
    if replies != [] && s.active {
      TickCounted(s, id, replies[0]);
      RunStops(Tick(s, id, replies[0]), id, replies[1..]);
    }
  }

  /** Within the 300 ticks a `completed` answer stops the poll at 100% with the
      download address set, and a `failed` one stops it at 0% with the server's
      message, or the default when the server sent none. */
  lemma TickAnswerEnds(s: PollState, id: string, status: string, prog: Option<real>, error: Option<string>)
    requires s.active && s.count < MaxPolls
    ensures var t := Tick(s, id, Answer(status, prog, error));
      && (status == "completed" ==>
            !t.active && !t.processing && t.progress == 100.0 && t.downloadUrl == Some(ResultUrl(id)))
      && (status == "failed" ==>
            && !t.active && !t.processing && t.progress == 0.0 && t.downloadUrl == s.downloadUrl
            && t.alert == Some(Alert("Failed", if error.Some? && error.value != "" then error.value else DefaultFailure)))
  {
  }
}
