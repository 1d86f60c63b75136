/** The decision the /download route makes, and the record it creates.
    The request carries an optional url and the two flags; the metadata
    probe of the external engine, which says whether the URL really is a
    playlist, is an input. */
module Route {
  import opened Optional
  import opened Job
  import opened Tracker
  import Playlist

  datatype Request = Request(url: Option<string>, downloadPlaylist: bool, confirmed: bool)

  datatype Decision =
    | Reject                                     // 400: URL is required
    | Fault                                      // an uncaught exception: 500
    | AskToConfirm                               // playlist-decision payload, no job
    | Start(url: string, downloadPlaylist: bool) // create the record, start the worker

  /** The route asks before downloading a playlist URL that the caller has
      neither asked to download whole nor confirmed. */
  predicate WantsConfirmation(url: string, req: Request) {
    Playlist.IsPlaylist(url) && !req.downloadPlaylist && !req.confirmed
  }

  /** The decision for a request whose url is present and non-empty. */
  function DecideForUrl(url: string, req: Request, probeSaysPlaylist: bool): Decision {
    if WantsConfirmation(url, req) && probeSaysPlaylist then AskToConfirm
    else Start(url, req.downloadPlaylist)
  }

  /** The decision as the route is written: the debug line slices the url
      before the emptiness check, so a request without a url fails there
      with an uncaught TypeError instead of reaching the 400 reply. */
  function DecideAsWritten(req: Request, probeSaysPlaylist: bool): (d: Decision)
    ensures req.url.None? ==> d.Fault?
    ensures req.url.Some? ==> d == Decide(req, probeSaysPlaylist)
  {
    match req.url
    case None => Fault
    case Some(url) => if url == "" then Reject else DecideForUrl(url, req, probeSaysPlaylist)
  }

  /** The decision as intended: a missing or empty url is rejected with 400;
      an unconfirmed playlist URL that the probe confirms gets the decision
      payload; everything else starts a job for the given url and choice. */
  function Decide(req: Request, probeSaysPlaylist: bool): (d: Decision)
    ensures !d.Fault?
    ensures d.Reject? <==> req.url.None? || req.url.value == ""
    ensures d.AskToConfirm? <==>
              && req.url.Some? && req.url.value != ""
              && WantsConfirmation(req.url.value, req) && probeSaysPlaylist
    ensures d.Start? ==> d.url == req.url.value && d.downloadPlaylist == req.downloadPlaylist
  {
    if req.url.None? || req.url.value == "" then Reject
    else DecideForUrl(req.url.value, req, probeSaysPlaylist)
  }

  /** A request without a url gets a 500 from the route as written, where a
      400 is intended; with a url present the two decisions agree. */
  lemma MissingUrlFaults(req: Request, probeSaysPlaylist: bool)
    ensures req.url.None? ==> DecideAsWritten(req, probeSaysPlaylist) == Fault
                               && Decide(req, probeSaysPlaylist) == Reject
    ensures req.url.Some? ==> DecideAsWritten(req, probeSaysPlaylist) == Decide(req, probeSaysPlaylist)
  {
  }

  /** The probe's answer matters only for an unconfirmed playlist URL. */
  lemma ProbeConsultedOnlyForPlaylists(req: Request)
    requires req.url.Some? ==> !WantsConfirmation(req.url.value, req)
    ensures Decide(req, true) == Decide(req, false)
  {
  }

  const UrlRequired := "URL is required"

  datatype Response =
    | BadRequest(message: string)
    | PlaylistDetected
    | Accepted(id: JobId)

  datatype Submission = Submission(response: Response, table: Table)

  /** The route's effect: reject, return the playlist payload, or store the
      initial record under `id` (replacing any record already there) and
      return the id. `id` stands for the time-and-hash id the route makes. */
  function Submit(t: Table, id: JobId, req: Request, probeSaysPlaylist: bool): (s: Submission)
    ensures s.response.Accepted? <==> Decide(req, probeSaysPlaylist).Start?
    ensures s.response.BadRequest? <==> req.url.None? || req.url.value == ""
    ensures s.response.BadRequest? ==> s.response.message == UrlRequired
    ensures s.response.Accepted? ==> s.response.id == id && s.table == t[id := Initial]
    ensures !s.response.Accepted? ==> s.table == t
  {
    match Decide(req, probeSaysPlaylist)
    case Reject => Submission(BadRequest(UrlRequired), t)
    case Fault => assert false; Submission(BadRequest(UrlRequired), t)
    case AskToConfirm => Submission(PlaylistDetected, t)
    case Start(_, _) => Submission(Accepted(id), t[id := Initial])
  }

  /** The record exists as soon as the id is returned, holds the initial
      record even if the id was already in use, and no other job changes. */
  lemma AcceptedIsVisible(t: Table, id: JobId, req: Request, probeSaysPlaylist: bool)
    requires Submit(t, id, req, probeSaysPlaylist).response.Accepted?
    ensures var s := Submit(t, id, req, probeSaysPlaylist);
            && GetStatus(s.table, id) == Found(Initial)
            && s.table.Keys == t.Keys + {id}
            && forall k :: k in t && k != id ==> s.table[k] == t[k]
  {
  }

  /** Ids are not unique: an accepted submission under an id already in use
      discards that job's record, whatever state it was in, and a later
      event from the old job's worker lands on the new record. */
  lemma SameIdCollision(t: Table, id: JobId, req: Request, probeSaysPlaylist: bool, msg: string)
    requires id in t && Submit(t, id, req, probeSaysPlaylist).response.Accepted?
    ensures var s := Submit(t, id, req, probeSaysPlaylist);
            && s.table.Keys == t.Keys
            && s.table[id] == Initial
            && Step(s.table, Event(id, LogInfo(msg))).table[id].log == Initial.log + [msg]
            && Step(s.table, Event(id, WorkerCompleted)).table[id].status == Completed
  {
  }

  /** An unconfirmed playlist URL that the probe confirms never creates a
      record; it gets the decision payload. */
  lemma UnconfirmedPlaylistNotStarted(t: Table, id: JobId, url: string)
    requires url != "" && Playlist.IsPlaylist(url)
    ensures var s := Submit(t, id, Request(Some(url), false, false), true);
            s.response == PlaylistDetected && s.table == t
  {
  }

  /** After an accepted submission, the job's record ends exactly as Job.Run
      describes its worker's run, however that run's events interleave with
      the events of jobs already in the table. */
  lemma SubmittedJobRuns(
    t: Table, id: JobId, req: Request, probeSaysPlaylist: bool,
    engine: seq<JobEvent>, ending: Ending, trace: seq<Event>)
    requires Submit(t, id, req, probeSaysPlaylist).response.Accepted?
    requires forall i :: 0 <= i < |trace| ==> trace[i].id in t || trace[i].id == id
    requires Project(trace, id) == [WorkerSetup(Decide(req, probeSaysPlaylist).url, req.downloadPlaylist)]
                                   + engine + [EndEvent(ending)]
    ensures var o := RunTrace(Submit(t, id, req, probeSaysPlaylist).table, trace);
            o.crashed == {} && o.table[id] == Run(Decide(req, probeSaysPlaylist).url, req.downloadPlaylist, engine, ending)
  {
    Isolation(Submit(t, id, req, probeSaysPlaylist).table, trace);
  }
}
