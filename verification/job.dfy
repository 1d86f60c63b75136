/** One download job's status record and the events that change it: the
    engine's logger, its progress hook and its post-processor hook, and the
    worker's own setup, completion and failure steps. Every event is a pure
    function from record to record; the tracker that holds many records
    and the unknown-id guards live in module Tracker. */
module Job {
  import opened Optional
  import Playlist

  datatype Status = Downloading | Completed | Error

  datatype PlaylistProgress = PlaylistProgress(current: int, total: int)

  /** Progress is the source's number (an int or a float); it is `real` here
      and is not bounded, since the downloading hook does not clamp it. */
  datatype Record = Record(
    status: Status,
    progress: real,
    log: seq<string>,
    filename: Option<string>,
    isPlaylist: bool,
    playlistProgress: PlaylistProgress
  )

  /** The record the /download route stores before starting the worker. */
  const Initial: Record :=
    Record(Downloading, 0.0, ["Initializing download..."], None, false, PlaylistProgress(0, 0))

  // Log lines written by the worker and the hooks.
  const StartLine := "Starting yt-dlp download process..."
  const SingleFromPlaylistLine := "Extracting single video from playlist URL..."
  const WholePlaylistLine := "Downloading entire playlist..."
  const NoPlaylistLine := "Option: noplaylist=True (single video only)"
  const ConnectingLine := "Connecting to YouTube..."
  const ConvertingLine := "Download finished, now converting to MP3..."
  const HookErrorLine := "Error during download"
  const PostDoneLine := "Post-processing complete!"
  const SuccessLine := "\U{2713} Download completed successfully!"

  function WarningLine(msg: string): string { "WARNING: " + msg }
  function ErrorLine(msg: string): string { "ERROR: " + msg }
  function FailureLine(msg: string): string { "\U{2717} Error: " + msg }

  /** The post-processor's name defaults to "processing" when the hook does
      not carry one. */
  function PostStartedLine(processor: Option<string>): string {
    "Post-processing: " + processor.GetOr("processing") + "..."
  }

  datatype JobEvent =
    // The engine's logger.
    | LogDebug(msg: string)
    | LogInfo(msg: string)
    | LogWarning(msg: string)
    | LogError(msg: string)
    // The engine's progress hook. `percent` is the percentage the hook
    // derives from byte counts or the percentage string, or None when the
    // hook carries neither or the string does not parse; `position` is
    // present when the hook carries both playlist index and count.
    | HookDownloading(percent: Option<real>, position: Option<PlaylistProgress>)
    | HookFinished
    | HookError
    // The engine's post-processor hook.
    | PostStarted(processor: Option<string>)
    | PostProcessing
    | PostFinished
    // The worker itself: its lines before calling the engine, normal
    // return from the engine, and the exception handler.
    | WorkerSetup(url: string, downloadPlaylist: bool)
    | WorkerCompleted
    | WorkerRaised(message: string)

  /** Events the engine emits while it runs, through the three callbacks. */
  predicate FromEngine(e: JobEvent) {
    !(e.WorkerSetup? || e.WorkerCompleted? || e.WorkerRaised?)
  }

  /** Engine events that report an error. */
  predicate ReportsError(e: JobEvent) {
    e.LogError? || e.HookError?
  }

  /** `b` equals `a` except, possibly, for its log. */
  predicate SameBesidesLog(a: Record, b: Record) {
    a.(log := b.log) == b
  }

  /** The worker's steps before it calls the engine: the start line, the
      playlist decision and its log lines, and the connecting line. */
  function Setup(r: Record, url: string, downloadPlaylist: bool): (r': Record)
    ensures r'.status == r.status && r'.progress == r.progress
    ensures r'.filename == r.filename && r'.playlistProgress == r.playlistProgress
    ensures r'.isPlaylist == (r.isPlaylist || (Playlist.IsPlaylist(url) && downloadPlaylist))
    ensures r'.log == r.log + SetupLines(Playlist.IsPlaylist(url), downloadPlaylist)
  {
    var pl := Playlist.IsPlaylist(url);
    var r1 := r.(log := r.log + [StartLine]);
    var r2 :=
      if pl && !downloadPlaylist then r1.(log := r1.log + [SingleFromPlaylistLine])
      else if pl && downloadPlaylist then r1.(isPlaylist := true, log := r1.log + [WholePlaylistLine])
      else r1;
    var r3 := if pl && !downloadPlaylist then r2.(log := r2.log + [NoPlaylistLine]) else r2;
    r3.(log := r3.log + [ConnectingLine])
  }

  /** The lines setup appends, by case: a single video taken from a playlist
      URL, a whole playlist, or a URL that is not a playlist. */
  function SetupLines(playlistUrl: bool, downloadPlaylist: bool): (lines: seq<string>)
    ensures |lines| == if playlistUrl && !downloadPlaylist then 4 else if playlistUrl then 3 else 2
    ensures lines[0] == StartLine && lines[|lines| - 1] == ConnectingLine
  {
    [StartLine]
    + (if playlistUrl && !downloadPlaylist then [SingleFromPlaylistLine, NoPlaylistLine]
       else if playlistUrl then [WholePlaylistLine]
       else [])
    + [ConnectingLine]
  }

  const DownloadDir := "/app/downloads"
  const SingleTemplate := DownloadDir + "/%(title)s.%(ext)s"
  const PlaylistTemplate := DownloadDir + "/%(playlist_title)s/%(title)s.%(ext)s"

  /** The options the worker hands the engine: best audio, re-encoded to
      192 kbit/s MP3. */
  datatype EngineOptions = EngineOptions(
    format: string,
    codec: string,
    quality: string,
    noPlaylist: bool,
    outputTemplate: string
  )

  /** The engine options, chosen from the URL, the caller's choice and the
      record as setup left it. */
  function Configure(url: string, downloadPlaylist: bool, r: Record): (o: EngineOptions)
    ensures o.noPlaylist <==> Playlist.IsPlaylist(url) && !downloadPlaylist
    ensures o.outputTemplate == PlaylistTemplate <==> r.isPlaylist
    ensures o.outputTemplate == SingleTemplate <==> !r.isPlaylist
    ensures o.format == "bestaudio/best" && o.codec == "mp3" && o.quality == "192"
  {
    EngineOptions(
      "bestaudio/best", "mp3", "192",
      Playlist.IsPlaylist(url) && !downloadPlaylist,
      if r.isPlaylist then PlaylistTemplate else SingleTemplate)
  }

  /** The effect of one event on a record. */
  function Apply(r: Record, e: JobEvent): (r': Record)
    ensures r.log <= r'.log
    ensures r'.filename == r.filename
    ensures r.status == Error ==> r'.status == Error
    ensures r'.status == Completed ==> r.status == Completed || e.WorkerCompleted?
    ensures r'.status != r.status ==> ReportsError(e) || e.WorkerCompleted? || e.WorkerRaised?
    ensures r'.progress != r.progress ==> e.HookDownloading? || e.HookFinished? || e.WorkerCompleted? || e.WorkerRaised?
    ensures FromEngine(e) && !e.HookDownloading? ==> r'.isPlaylist == r.isPlaylist && r'.playlistProgress == r.playlistProgress
  {
    match e
    case LogDebug(_) => r
    case LogInfo(msg) => r.(log := r.log + [msg])
    case LogWarning(msg) => r.(log := r.log + [WarningLine(msg)])
    case LogError(msg) => r.(log := r.log + [ErrorLine(msg)], status := Error)
    case HookDownloading(percent, position) =>
      r.(progress := percent.GetOr(r.progress), playlistProgress := position.GetOr(r.playlistProgress))
    case HookFinished => r.(progress := 95.0, log := r.log + [ConvertingLine])
    case HookError => r.(status := Error, log := r.log + [HookErrorLine])
    case PostStarted(processor) => r.(log := r.log + [PostStartedLine(processor)])
    case PostProcessing => r
    case PostFinished => r.(log := r.log + [PostDoneLine])
    case WorkerSetup(url, downloadPlaylist) => Setup(r, url, downloadPlaylist)
    case WorkerCompleted =>
      if r.status != Error then r.(status := Completed, progress := 100.0, log := r.log + [SuccessLine])
      else r
    case WorkerRaised(msg) => r.(status := Error, progress := 0.0, log := r.log + [FailureLine(msg)])
  }

  /** The effect of a sequence of events, applied in order. */
  function ApplyAll(r: Record, es: seq<JobEvent>): (r': Record)
    ensures r.log <= r'.log
    ensures r'.filename == r.filename
    ensures r.status == Error ==> r'.status == Error
    decreases |es|
  {
    if es == [] then r else ApplyAll(Apply(r, es[0]), es[1..])
  }

  /** How the worker's call into the engine ended. */
  datatype Ending = Returned | Raised(message: string)

  function EndEvent(ending: Ending): JobEvent {
    match ending
    case Returned => WorkerCompleted
    case Raised(msg) => WorkerRaised(msg)
  }

  /** A whole job as the worker drives it: the initial record, setup, the
      engine's events, then completion or the exception handler. */
  function Run(url: string, downloadPlaylist: bool, engine: seq<JobEvent>, ending: Ending): (r: Record)
    ensures Initial.log <= r.log && r.filename == None
    ensures r.status == Completed ==> r.progress == 100.0
    ensures ending.Raised? ==> r.status == Error && r.progress == 0.0
  {
    var prefix := [WorkerSetup(url, downloadPlaylist)] + engine;
    var last := [EndEvent(ending)];
    ApplyAllConcat(Initial, prefix, last);
    assert ApplyAll(ApplyAll(Initial, prefix), last) == Apply(ApplyAll(Initial, prefix), EndEvent(ending)) by {
      assert last[0] == EndEvent(ending) && last[1..] == [];
    }
    ApplyAll(Initial, prefix + last)
  }

  // ---------------------------------------------------------------------
  // Effects of single events.

  /** Logger: info appends the message verbatim, warning and error append it
      with a prefix; only error changes the status, and nothing else. */
  lemma LoggerEffects(r: Record, msg: string)
    ensures Apply(r, LogDebug(msg)) == r
    ensures var r' := Apply(r, LogInfo(msg)); SameBesidesLog(r, r') && r'.log == r.log + [msg]
    ensures var r' := Apply(r, LogWarning(msg)); SameBesidesLog(r, r') && r'.log == r.log + ["WARNING: " + msg]
    ensures var r' := Apply(r, LogError(msg));
              r'.status == Error && SameBesidesLog(r.(status := Error), r') && r'.log == r.log + ["ERROR: " + msg]
  {
  }

  /** Progress hook: finished sets progress to 95 and appends the converting line;
      error sets the status and appends one line; downloading changes only
      progress and playlist position, each when the event carries it. */
  lemma HookEffects(r: Record, percent: Option<real>, position: Option<PlaylistProgress>)
    ensures var r' := Apply(r, HookFinished);
              r'.progress == 95.0 && r'.status == r.status && r'.log == r.log + [ConvertingLine]
              && SameBesidesLog(r.(progress := 95.0), r')
    ensures var r' := Apply(r, HookError);
              r'.status == Error && r'.progress == r.progress && r'.log == r.log + [HookErrorLine]
              && SameBesidesLog(r.(status := Error), r')
    ensures var r' := Apply(r, HookDownloading(percent, position));
              && r'.log == r.log && r'.status == r.status
              && r'.isPlaylist == r.isPlaylist && r'.filename == r.filename
              && (percent.Some? ==> r'.progress == percent.value)
              && (percent.None? ==> r'.progress == r.progress)
              && (position.Some? ==> r'.playlistProgress == position.value)
              && (position.None? ==> r'.playlistProgress == r.playlistProgress)
  {
  }

  /** Post-processor hook: started and finished each append one line and
      change nothing else; other phases change nothing. */
  lemma PostHookEffects(r: Record, processor: Option<string>)
    ensures var r' := Apply(r, PostStarted(processor));
              SameBesidesLog(r, r') && r'.log == r.log + ["Post-processing: " + processor.GetOr("processing") + "..."]
    ensures var r' := Apply(r, PostFinished); SameBesidesLog(r, r') && r'.log == r.log + [PostDoneLine]
    ensures Apply(r, PostProcessing) == r
  {
  }

  /** Completion turns any non-error status into completed with progress 100
      and one success line, and leaves an errored record exactly as it is. */
  lemma CompletionEffect(r: Record)
    ensures r.status == Error ==> Apply(r, WorkerCompleted) == r
    ensures r.status != Error ==>
              var r' := Apply(r, WorkerCompleted);
              r'.status == Completed && r'.progress == 100.0 && r'.log == r.log + [SuccessLine]
              && SameBesidesLog(r.(status := Completed, progress := 100.0), r')
    ensures var r' := Apply(r, WorkerCompleted); r'.status == Completed ==> r'.progress == 100.0
  {
  }

  /** The exception handler always yields error, progress 0 and one line. */
  lemma RaisedEffect(r: Record, msg: string)
    ensures var r' := Apply(r, WorkerRaised(msg));
              r'.status == Error && r'.progress == 0.0 && r'.log == r.log + ["\U{2717} Error: " + msg]
              && SameBesidesLog(r.(status := Error, progress := 0.0), r')
  {
  }

  /** The worker's playlist decisions, for a record that is not yet marked as
      a playlist (as every freshly created record is): the engine is told
      `noplaylist` exactly for a playlist URL the caller wants one video of;
      the record is marked as a playlist, and the playlist output template
      chosen, exactly for a playlist URL the caller wants whole. */
  lemma SetupDecisions(r: Record, url: string, downloadPlaylist: bool)
    requires !r.isPlaylist
    ensures var r' := Setup(r, url, downloadPlaylist);
            var o := Configure(url, downloadPlaylist, r');
            && (o.noPlaylist <==> Playlist.IsPlaylist(url) && !downloadPlaylist)
            && (r'.isPlaylist <==> Playlist.IsPlaylist(url) && downloadPlaylist)
            && (o.outputTemplate == PlaylistTemplate <==> Playlist.IsPlaylist(url) && downloadPlaylist)
            && !(o.noPlaylist && r'.isPlaylist)
  {
  }

  // ---------------------------------------------------------------------
  // Sequences of events.

  lemma ApplyAllCons(r: Record, e: JobEvent, rest: seq<JobEvent>)
    ensures ApplyAll(r, [e] + rest) == ApplyAll(Apply(r, e), rest)
  {
    assert ([e] + rest)[0] == e && ([e] + rest)[1..] == rest;
  }

  lemma {:induction false} ApplyAllConcat(r: Record, a: seq<JobEvent>, b: seq<JobEvent>)
    ensures ApplyAll(r, a + b) == ApplyAll(ApplyAll(r, a), b)
    decreases |a|
  {
    if a == [] {
      assert a + b == b;
    } else {
      assert (a + b)[0] == a[0];
      assert (a + b)[1..] == a[1..] + b;
      ApplyAllConcat(Apply(r, a[0]), a[1..], b);
    }
  }

  /** Engine events never complete a job: starting from downloading, the
      status after them is error exactly when one of them reported an error,
      and is still downloading otherwise. */
  lemma {:induction false} EngineStatus(r: Record, es: seq<JobEvent>)
    requires forall e <- es :: FromEngine(e)
    requires r.status != Completed
    ensures ApplyAll(r, es).status == Error <==> r.status == Error || exists e <- es :: ReportsError(e)
    ensures ApplyAll(r, es).status != Completed
    decreases |es|
  {
    if es != [] {
      assert FromEngine(es[0]) && Apply(r, es[0]).status != Completed;
      assert forall e <- es[1..] :: FromEngine(e);
      EngineStatus(Apply(r, es[0]), es[1..]);
      assert es == [es[0]] + es[1..];
    }
  }

  // ---------------------------------------------------------------------
  // Whole jobs.

  lemma RunSplit(url: string, downloadPlaylist: bool, engine: seq<JobEvent>, ending: Ending)
    ensures Run(url, downloadPlaylist, engine, ending)
            == Apply(ApplyAll(Setup(Initial, url, downloadPlaylist), engine), EndEvent(ending))
  {
    var s := [WorkerSetup(url, downloadPlaylist)];
    ApplyAllConcat(Initial, s + engine, [EndEvent(ending)]);
    ApplyAllConcat(Initial, s, engine);
  }

  /** A job whose engine call returns ends completed exactly when the engine
      reported no error, and in error otherwise; completed means progress
      100 with the success line last in the log. */
  lemma ReturnedOutcome(url: string, downloadPlaylist: bool, engine: seq<JobEvent>)
    requires forall e <- engine :: FromEngine(e)
    ensures var r := Run(url, downloadPlaylist, engine, Returned);
            && (r.status == Completed <==> forall e <- engine :: !ReportsError(e))
            && (r.status == Error <==> exists e <- engine :: ReportsError(e))
            && (r.status == Completed ==> r.progress == 100.0 && r.log[|r.log| - 1] == SuccessLine)
  {
    RunSplit(url, downloadPlaylist, engine, Returned);
    EngineStatus(Setup(Initial, url, downloadPlaylist), engine);
  }

  /** A job whose engine call raises ends in error with progress 0 and the
      failure message last in the log, whatever the engine did before. */
  lemma RaisedOutcome(url: string, downloadPlaylist: bool, engine: seq<JobEvent>, msg: string)
    ensures var r := Run(url, downloadPlaylist, engine, Raised(msg));
            r.status == Error && r.progress == 0.0 && r.log[|r.log| - 1] == FailureLine(msg)
  {
    RunSplit(url, downloadPlaylist, engine, Raised(msg));
  }

  /** An error reported by the engine does not reset progress: a job whose
      download finished and whose post-processing then logged an error ends
      in error with progress 95. */
  lemma ErrorKeepsProgress(url: string, downloadPlaylist: bool, msg: string)
    ensures var r := Run(url, downloadPlaylist, [HookFinished, LogError(msg)], Returned);
            r.status == Error && r.progress == 95.0
  {
    RunSplit(url, downloadPlaylist, [HookFinished, LogError(msg)], Returned);
    var r0 := Setup(Initial, url, downloadPlaylist);
    var r1 := Apply(r0, HookFinished);
    assert ApplyAll(r0, [HookFinished, LogError(msg)]) == ApplyAll(r1, [LogError(msg)]);
    assert ApplyAll(r1, [LogError(msg)]) == ApplyAll(Apply(r1, LogError(msg)), []);
  }

  /** Every job's log begins with the creation line and the worker's start
      line, and keeps every line ever appended. */
  lemma RunLogStart(url: string, downloadPlaylist: bool, engine: seq<JobEvent>, ending: Ending)
    ensures var r := Run(url, downloadPlaylist, engine, ending);
            |r.log| >= 2 && r.log[0] == "Initializing download..." && r.log[1] == StartLine
            && Setup(Initial, url, downloadPlaylist).log <= r.log
  {
    RunSplit(url, downloadPlaylist, engine, ending);
  }
}
