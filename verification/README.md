# YouTube-to-MP3 job tracker, modelled in Dafny

The web application takes a video URL and hands it to an external download
library, which fetches the audio and converts it to MP3. A browser polls for
progress. The only deterministic logic of its own lives in `app.py`, and this
project models that logic:

- **the playlist classifier** `is_playlist`: three case-insensitive regular
  expressions, each searched anywhere in the URL (module `Playlist`, with
  ASCII case folding in `CaseFold`);
- **the job status record** and every event that changes it (module `Job`).
  The events come from the library's logger (`info`/`warning`/`error`, and
  `debug`, which does nothing) and from its progress hook
  (`downloading`/`finished`/`error`). The post-processor hook adds
  `started`/`processing`/`finished`. The worker itself contributes its setup
  lines and playlist options, normal completion and its exception handler;
- **the status table** `download_status`, keyed by job id (module
  `Tracker`). Events carry a job id. The logger and the progress hook check
  that the id is present and do nothing otherwise. The post-processor hook's
  started and finished phases and the worker index the table without a
  check, and a KeyError follows.
  That outcome is `Missing`: it ends that job's worker thread, leaves the
  table untouched, and the other jobs carry on;
- **the `/download` decision** (module `Route`). A missing or empty url is
  rejected. A playlist URL that the caller has neither confirmed nor asked to
  download whole, and that the metadata probe confirms, gets a
  playlist-decision payload. Anything else stores the initial record under
  the job id and starts the worker.

Everything works on immutable datatypes: pure functions, plus two methods
(`Playlist.SearchScan`, `Playlist.ClassifyUrl`) that use only local
variables and touch no heap. The external library
is replaced by an abstract sequence of `Job.JobEvent`s. Its metadata probe
becomes a boolean input, and the job id is a parameter.

Two properties one might expect do not hold in the code:
- **An error does not reset progress.** An error reported by the logger or
  the progress hook sets the status to error but keeps the progress. Only
  the worker's exception handler sets it to 0. So "status error" does not
  imply "progress 0" (`Job.ErrorKeepsProgress`). "Status completed" does
  imply "progress 100" (`Job.ReturnedOutcome`).
- **Progress is not bounded.** The downloading hook stores whatever
  percentage it computes, without clamping. No bound on progress is claimed.

When the route answers with the playlist-decision payload, no record is
created, so a record's status is only ever downloading, completed or error.

## Model

| member | source | states |
|---|---|---|
| `Playlist.IsPlaylist` | app.py:76-87 | the classifier is true iff some pattern of the list matches, ignoring ASCII case, at some position of the URL; a URL shorter than six characters is never a playlist |
| `Playlist.ClassifyUrl` | app.py:76-87 | trying the three patterns in order and stopping at the first hit answers exactly `IsPlaylist(url)`: true iff some pattern matches somewhere in the URL |
| `Playlist.SearchScan` | app.py:84-86 | an unanchored, case-insensitive search: true iff the pattern matches, ignoring ASCII case, at some start position of the string |
| `Playlist.IsPlaylistLiterals` | app.py:78-82 | the classifier is true iff the lower-cased URL contains `?list=`, `&list=`, `playlist?` or `/playlist`; the character class `[&?]` contributes exactly the first two |
| `Playlist.CaseInsensitive` | app.py:85 | two URLs that differ only in the case of ASCII letters are classified alike; lower-casing or upper-casing a URL never changes its classification |
| `Job.Setup` | app.py:115-157 | the worker's setup keeps status, progress and playlist position. It marks the record as a playlist iff the URL is one and the whole playlist is wanted. It appends the start line, the case's lines and the connecting line: 4 lines for one video from a playlist URL, 3 for a whole playlist, 2 otherwise |
| `Job.Configure` | app.py:131-155 | engine options: best audio, MP3 at 192. `noplaylist` is set iff the URL is a playlist and the whole playlist is not wanted. The playlist output template is used iff the record is marked as a playlist, otherwise the single-file template |
| `Job.SetupDecisions` | app.py:118-155 | for a fresh record, `noplaylist` iff playlist URL and single video wanted; record marked playlist, and playlist template, iff playlist URL and whole playlist wanted; never both |
| `Job.Apply` | app.py:28-171 | every event keeps the old log as a prefix and never changes the filename. Error is never left. Only completion produces completed. Only error reports, completion and the exception handler change the status. Only the progress hook, completion and the exception handler change progress |
| `Job.ApplyAll` | app.py:112-171 | over any sequence of events the log only grows, the filename is unchanged, and an errored record stays errored |
| `Job.LoggerEffects` | app.py:25-39 | debug does nothing. Info appends the message verbatim; warning appends it after `WARNING: `; error appends it after `ERROR: ` and sets status to error. No other field changes |
| `Job.HookEffects` | app.py:41-74 | finished sets progress to exactly 95, appends exactly `Download finished, now converting to MP3...` and keeps the status. Error sets the status to error, appends `Error during download` and keeps the progress. Downloading touches neither log, status, playlist flag nor filename: it replaces progress and playlist position only when the event carries them |
| `Job.PostHookEffects` | app.py:125-129 | post-processing started appends `Post-processing: <name>...`, where the name defaults to `processing`. Finished appends `Post-processing complete!`. Any other phase does nothing, and no other field ever changes |
| `Job.CompletionEffect` | app.py:162-166 | completion of a non-errored record gives status completed, progress 100 and one success line. An errored record is left exactly as it is, so completed always comes with progress 100 |
| `Job.RaisedEffect` | app.py:168-171 | the exception handler always gives status error, progress 0 and one `✗ Error: <message>` line, whatever the state before |
| `Job.EngineStatus` | app.py:36-74 | the engine's events never complete a job. Starting from a non-completed record, the status ends as error iff it already was or some event reported an error (logger error or hook error) |
| `Job.ReturnedOutcome` | app.py:159-166 | when the engine returns, the job ends completed iff no engine event reported an error, and in error otherwise. Completed means progress 100 with the success line last |
| `Job.RaisedOutcome` | app.py:168-171 | when the engine raises, the job ends in error with progress 0 and the failure line last, whatever happened before |
| `Job.ErrorKeepsProgress` | app.py:36-39 | a job whose download finished (progress 95) and whose logger then reported an error ends with status error and progress still 95 |
| `Job.Run` | app.py:112-171 | a whole worker run (setup, the engine's events, then normal return or the exception handler) keeps the initial log line first and the filename unset; if it ends completed its progress is 100, and if the engine raised it ends in error with progress 0, whatever the engine's events were |
| `Job.RunLogStart` | app.py:203-206 | every job's log starts with `Initializing download...` and then the worker's start line, and keeps everything setup wrote |
| `Tracker.Unguarded` | app.py:115-171 | the events that raise KeyError for an unknown id are exactly those that are not from the engine (the worker's setup, completion and exception handler), plus the post-processor hook's started and finished phases |
| `Tracker.GetStatus` | app.py:237-243 | a status query finds a record iff the id is in the table, and then returns exactly the stored record |
| `Tracker.Step` | app.py:28-43 | an event raises iff its id is unknown and it reads the record without checking for it. Otherwise the key set is unchanged and every other job's record is untouched. The event's own job gets the record-level effect. A guarded event for an unknown id leaves the table unchanged |
| `Tracker.Next` | app.py:28-43 | one event's effect on the table: the key set is kept, an event of an unknown id changes nothing whether it raises or not, and otherwise only the event's own record changes, by `Job.Apply` |
| `Tracker.RunTrace` | app.py:18-19 | running any trace keeps the table's key set: no event creates or removes a job. The ids whose threads died of KeyError are exactly the unknown ids with an unchecked event in the trace. That the trace goes on after a KeyError is stated by `Tracker.TableIsolation` and `Tracker.DeadJobDoesNotStopOthers` |
| `Tracker.TableIsolation` | app.py:132-135 | for every trace, including one in which threads die, each job in the table ends exactly as its own events, applied alone in order, would leave it |
| `Tracker.Project` | app.py:132-135 | every projected event is the body of some event of that job in the trace. A trace with none of the job's events projects to nothing, and a trace of only its events projects to all their bodies in order |
| `Tracker.UnknownIdEffects` | app.py:29-43 | logger, progress-hook and post-processing `processing` events for an unknown id leave the whole table unchanged. Post-processing started/finished and the worker's own steps raise KeyError |
| `Tracker.Isolation` | app.py:132-135 | when every event's job exists, no thread dies, and each job's record ends exactly as its own events, applied alone in order, would leave it, so log lines never cross between jobs with distinct ids |
| `Tracker.OthersDoNotTouch` | app.py:132-135 | events that belong to other jobs never change a job's record |
| `Tracker.DeadJobDoesNotStopOthers` | app.py:125-129 | a post-processor or worker event for an unknown id, anywhere in a trace, kills its own thread and nothing else: the id is recorded as crashed, the final table is the one the trace gives without that event, and when every other event's id is known it is the only crashed id |
| `Route.DecideAsWritten` | app.py:184-187 | as written, a request without a url fails before the emptiness test (the debug line slices it), an internal error. With a url present, it decides as `Route.Decide` |
| `Route.Decide` | app.py:186-197 | never an internal error. Rejected iff the url is missing or empty. The decision payload iff the url is a playlist, neither flag is set and the probe confirms it. Otherwise the job starts with the given url and playlist choice |
| `Route.MissingUrlFaults` | app.py:184-187 | a request without a url gets an internal error as written where the intended decision is the 400 rejection; with a url the two agree |
| `Route.ProbeConsultedOnlyForPlaylists` | app.py:190-193 | the probe's answer changes nothing unless the url is a playlist that is neither confirmed nor wanted whole |
| `Route.Submit` | app.py:186-219 | a 400 reply, with the message `URL is required`, iff the url is missing or empty. A job id is returned iff the decision starts a job, and then the table is the old table with the initial record stored under that id. Otherwise the table is unchanged |
| `Route.AcceptedIsVisible` | app.py:202-210 | once an id is returned, a status query for it finds the initial record, even if the id was already in use. The key set grows by exactly that id and no other job changes |
| `Route.SameIdCollision` | app.py:199-210 | an accepted submission under an id already in use replaces that job's record by the initial one, whatever state it was in; a later log line or completion from the old job's worker then lands on the new record |
| `Route.UnconfirmedPlaylistNotStarted` | app.py:190-197 | a non-empty playlist URL without either flag, confirmed by the probe, gets the decision payload and creates no record |
| `Route.SubmittedJobRuns` | app.py:214-217 | after an accepted submission the worker's run ends with the job's record exactly as `Job.Run` describes it. This holds however its events interleave with those of jobs with other ids already in the table |

## Left out

- The external download library (`yt_dlp`). Its run is an abstract sequence of logger, progress-hook and post-processor events, ended by a normal return or an exception.
- The playlist probe `get_playlist_info` (app.py:89-110) and the `/check-playlist` route. The probe is a boolean input of the decision, and the payload's contents are not modelled.
- Threads. Each job's events are applied in sequence, and jobs interleave as a single trace (`Tracker.Isolation`). Races on the shared dictionary are not modelled.
- The percentage arithmetic of the downloading hook: byte-count division, `round(…, 1)` and parsing of the percentage string. The hook's result is an optional real, absent when the event carries no usable figure or the string does not parse. `float` also accepts `nan` and `inf` (app.py:56), which the source would store as progress; a Dafny `real` cannot represent either, so such progress values are not modelled.
- Exceptions raised inside the hooks for malformed events, such as a missing `downloaded_bytes` key. The `noplaylist`/output-template options are computed (`Job.Configure`), but what the library does with them is not modelled.
- Job-id generation from the clock and Python's salted `hash`. The id is a parameter, so two requests for the same URL within one second can get the same id. Creation then overwrites the existing entry and both workers write to one record (`Route.SameIdCollision`); `Tracker.Isolation` holds only for distinct ids.
- JSON parsing and encoding, CORS, HTTP plumbing, the index page, `/downloads`, `/download_file` and the filesystem. A non-JSON body and non-string url or flag values are not modelled; the flags are booleans.
- Python's Unicode case folding under `re.IGNORECASE`. For example, `ſ` matches `s` and the Kelvin sign matches `k`. The model folds ASCII letters only, so it is an approximation for non-ASCII URLs.
- The `filename` field is never set by the code. The model keeps it and proves that no event changes it.
- The playlist position carried by the progress hook is modelled as two integers. The library may supply `None` for either.
- `Job.Apply`: states "completed implies progress 100" only for whole job runs (`Job.Run`, `Job.ReturnedOutcome`) and for the completion step itself. A downloading hook that fires after completion, which the library does not do, would break the claim for arbitrary event orders.

## Findings

| source | as written | input that shows it | evidently intended | confidence | as-written member | corrected member |
|---|---|---|---|---|---|---|
| app.py:184-187 | the debug line evaluates `url[:50]` before the `if not url` check | a `/download` body without `url`: slicing `None` raises TypeError, so the reply is an internal error (500) | the 400 reply `URL is required` for a missing url, as for an empty one | high; not executed | `Route.DecideAsWritten` (shown by `Route.MissingUrlFaults`) | `Route.Decide`, used by `Route.Submit` |
