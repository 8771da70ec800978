/**
 * The download bookkeeping of one image component (image.js), as pure
 * transitions on its five state fields and on the files of the device.
 *
 * Each handler of the component is one atomic event; promise timing and
 * `setState` batching are not modelled. The files are a map from path to
 * size holding regular files only. What the native module decides (whether
 * `mkdir` succeeds, the job id it hands out, the status code, how many bytes
 * were written) arrives as a parameter of the event.
 */
module ImageState {
  import opened Wrappers

  /** `this.state` of the component (image.js:23-29). */
  datatype ImageState = ImageState(
    isRemote: bool,
    cachedImagePath: Option<string>,
    cacheable: bool,
    downloading: bool,
    jobId: Option<int>)

  /** The state the constructor sets (image.js:23-29). */
  const Initial: ImageState := ImageState(false, None, true, false, None)

  /** Regular files on the device: path to size in bytes. */
  type Files = map<string, nat>

  datatype World = World(st: ImageState, files: Files)

  /** JavaScript truthiness of `jobId`: null and 0 are false. */
  predicate Truthy(jobId: Option<int>)
  {
    jobId.Some? && jobId.value != 0
  }

  /** JavaScript truthiness of `cachedImagePath`: null and "" are false. */
  predicate PathTruthy(path: Option<string>)
  {
    path.Some? && path.value != ""
  }

  /** The two status codes every handler treats as "no image". */
  predicate IsDenied(statusCode: int)
  {
    statusCode == 403 || statusCode == 404
  }

  /** `res.isFile() && res.size > 0` after `stat` (image.js:69). */
  predicate IsCacheHit(files: Files, filePath: string)
  {
    filePath in files && files[filePath] > 0
  }

  /** `_deleteFilePath` (image.js:154-164): unlink the file if it exists. */
  function DeleteFile(files: Files, path: string): Files
  {
    files - {path}
  }

  // ---------------------------------------------------------------------
  // One function per handler
  // ---------------------------------------------------------------------

  /** `_stopDownload` (image.js:209-216). */
  function StopJob(s: ImageState): ImageState
  {
    if !Truthy(s.jobId) then s else s.(downloading := false, jobId := None)
  }

  /** `imageDownloadBegin` (image.js:39-49). */
  function OnBegin(s: ImageState, statusCode: int, infoJobId: int): ImageState
  {
    if IsDenied(statusCode) then s else s.(downloading := true, jobId := Some(infoJobId))
  }

  /**
   * `imageDownloadProgress` (image.js:51-57). The floating-point test
   * `contentLength / bytesWritten == 1` holds for integers exactly when
   * they are equal and not zero.
   */
  function OnProgress(s: ImageState, contentLength: int, bytesWritten: int): ImageState
  {
    if bytesWritten != 0 && contentLength == bytesWritten then s.(downloading := false, jobId := None) else s
  }

  /**
   * The `stat` handlers of `checkImageCache` (image.js:66-118) together with
   * the `mkdir` failure handler (image.js:147-150).
   */
  function OnLookup(w: World, filePath: string, mkdirSucceeds: bool, newJobId: int): World
  {
    if IsCacheHit(w.files, filePath) then
      World(w.st.(cacheable := true, cachedImagePath := Some(filePath)), w.files)
    else if !mkdirSucceeds then
      World(w.st.(cacheable := false, cachedImagePath := None), DeleteFile(w.files, filePath))
    else
      var files :=
        if w.st.cacheable && PathTruthy(w.st.cachedImagePath)
        then DeleteFile(w.files, w.st.cachedImagePath.value)
        else w.files;
      World(StopJob(w.st).(downloading := true, jobId := Some(newJobId)), files)
  }

  /**
   * The download promise resolves (image.js:120-134); the transfer has left
   * `written` bytes at `filePath`.
   */
  function OnComplete(w: World, filePath: string, statusCode: int, written: nat): World
  {
    var st := w.st.(downloading := false, jobId := None);
    World(
      if IsDenied(statusCode) then st.(cacheable := false, cachedImagePath := None)
      else st.(cacheable := true, cachedImagePath := Some(filePath)),
      w.files[filePath := written])
  }

  /** The download promise rejects (image.js:135-145). */
  function OnError(w: World, filePath: string): World
  {
    World(
      if w.st.downloading
      then w.st.(cacheable := false, cachedImagePath := None, downloading := false, jobId := None)
      else w.st,
      DeleteFile(w.files, filePath))
  }

  /** The state changes of `_processSource` (image.js:178-206). */
  function OnProcessSource(s: ImageState, remote: bool): ImageState
  {
    if remote then StopJob(s).(isRemote := true) else s.(isRemote := false)
  }

  /** `componentWillUnmount` (image.js:222-226). */
  function OnUnmount(s: ImageState): ImageState
  {
    if s.downloading && Truthy(s.jobId) then StopJob(s) else s
  }

  // ---------------------------------------------------------------------
  // Event traces
  // ---------------------------------------------------------------------

  datatype Event =
    | SourceProcessed(remote: bool)
    | CacheChecked(filePath: string, mkdirSucceeds: bool, newJobId: int)
    | BeginReceived(statusCode: int, infoJobId: int)
    | ProgressReceived(contentLength: int, bytesWritten: int)
    | Completed(filePath: string, statusCode: int, written: nat)
    | Failed(filePath: string)
    | Unmounted

  function Apply(w: World, e: Event): World
  {
    match e
    case SourceProcessed(remote) => World(OnProcessSource(w.st, remote), w.files)
    case CacheChecked(p, ok, id) => OnLookup(w, p, ok, id)
    case BeginReceived(code, id) => World(OnBegin(w.st, code, id), w.files)
    case ProgressReceived(total, written) => World(OnProgress(w.st, total, written), w.files)
    case Completed(p, code, n) => OnComplete(w, p, code, n)
    case Failed(p) => OnError(w, p)
    case Unmounted => World(OnUnmount(w.st), w.files)
  }

  function Run(w: World, events: seq<Event>): World
    decreases |events|
  {
    if events == [] then w else Run(Apply(w, events[0]), events[1..])
  }

  // ---------------------------------------------------------------------
  // The job invariant
  // ---------------------------------------------------------------------

  /** A download is marked active exactly when a job id is held. */
  predicate JobTracked(s: ImageState)
  {
    s.downloading <==> Truthy(s.jobId)
  }

  /** The native module numbers its jobs from 1, so no event carries job id 0. */
  predicate NonzeroJobIds(e: Event)
  {
    match e
    case CacheChecked(_, _, id) => id != 0
    case BeginReceived(_, id) => id != 0
    case _ => true
  }

  lemma ApplyKeepsJobTracked(w: World, e: Event)
    requires JobTracked(w.st) && NonzeroJobIds(e)
    ensures JobTracked(Apply(w, e).st)
  {
  }

  /** Every trace from the initial state keeps `downloading` and `jobId` in step. */
  lemma {:induction false} RunKeepsJobTracked(w: World, events: seq<Event>)
    requires JobTracked(w.st)
    requires forall i :: 0 <= i < |events| ==> NonzeroJobIds(events[i])
    ensures JobTracked(Run(w, events).st)
    decreases |events|
  {
    if events != [] {
      ApplyKeepsJobTracked(w, events[0]);
      RunKeepsJobTracked(Apply(w, events[0]), events[1..]);
    }
  }

  /** Unmounting leaves no download and no job id behind. */
  lemma UnmountLeavesNoJob(s: ImageState)
    requires JobTracked(s)
    ensures !OnUnmount(s).downloading && !Truthy(OnUnmount(s).jobId)
    ensures OnUnmount(s).(downloading := s.downloading, jobId := s.jobId) == s
  {
  }

  /** Stopping twice is stopping once, and stopping with no job changes nothing. */
  lemma StopJobIdempotent(s: ImageState)
    ensures StopJob(StopJob(s)) == StopJob(s)
    ensures !Truthy(s.jobId) ==> StopJob(s) == s
  {
  }

  // ---------------------------------------------------------------------
  // Lookup
  // ---------------------------------------------------------------------

  /** A non-empty file at the target is served and no download starts. */
  lemma CacheHitStartsNoDownload(w: World, filePath: string, mkdirSucceeds: bool, newJobId: int)
    requires IsCacheHit(w.files, filePath)
    ensures var w' := OnLookup(w, filePath, mkdirSucceeds, newJobId);
      && w'.st.cacheable && w'.st.cachedImagePath == Some(filePath)
      && w'.st.downloading == w.st.downloading && w'.st.jobId == w.st.jobId
      && w'.st.isRemote == w.st.isRemote
      && w'.files == w.files
  {
  }

  /**
   * On a miss with the directory in place, the file the component showed
   * before is deleted, any job is stopped and the new job is the active one.
   * No other file is touched: a zero-size file at the target stays (unless it
   * is the file shown before) and the download goes onto it.
   */
  lemma CacheMissStartsDownload(w: World, filePath: string, newJobId: int)
    requires !IsCacheHit(w.files, filePath)
    ensures var w' := OnLookup(w, filePath, true, newJobId);
      && w'.st.downloading && w'.st.jobId == Some(newJobId)
      && w'.st.cacheable == w.st.cacheable && w'.st.cachedImagePath == w.st.cachedImagePath
      && (w.st.cacheable && PathTruthy(w.st.cachedImagePath) ==> w.st.cachedImagePath.value !in w'.files)
      && (forall q :: q in w.files && !(w.st.cacheable && w.st.cachedImagePath == Some(q))
                      ==> q in w'.files && w'.files[q] == w.files[q])
      && w'.files.Keys <= w.files.Keys
  {
  }

  /** When `mkdir` fails the target is deleted and the component shows no cached file. */
  lemma MkdirFailureForgetsImage(w: World, filePath: string, newJobId: int)
    requires !IsCacheHit(w.files, filePath)
    ensures var w' := OnLookup(w, filePath, false, newJobId);
      && !w'.st.cacheable && w'.st.cachedImagePath == None
      && w'.st.downloading == w.st.downloading && w'.st.jobId == w.st.jobId
      && filePath !in w'.files
  {
  }

  // ---------------------------------------------------------------------
  // Download callbacks
  // ---------------------------------------------------------------------

  /** A 403 or 404 at the start of the transfer changes nothing. */
  lemma DeniedBeginChangesNothing(s: ImageState, statusCode: int, infoJobId: int)
    requires IsDenied(statusCode)
    ensures OnBegin(s, statusCode, infoJobId) == s
  {
  }

  /**
   * Completion clears the job; the image is cached at the target unless the
   * status is 403 or 404. The file the transfer wrote stays in both cases.
   */
  lemma CompletionOutcome(w: World, filePath: string, statusCode: int, written: nat)
    ensures var w' := OnComplete(w, filePath, statusCode, written);
      && !w'.st.downloading && w'.st.jobId == None
      && (w'.st.cacheable <==> !IsDenied(statusCode))
      && w'.st.cachedImagePath == (if IsDenied(statusCode) then None else Some(filePath))
      && filePath in w'.files
  {
  }

  /** An error deletes the target; it resets the state only while `downloading` is set. */
  lemma ErrorOutcome(w: World, filePath: string)
    ensures var w' := OnError(w, filePath);
      && filePath !in w'.files
      && (!w.st.downloading ==> w'.st == w.st)
      && (w.st.downloading ==> !w'.st.downloading && w'.st.jobId == None
                               && !w'.st.cacheable && w'.st.cachedImagePath == None)
  {
  }

  // ---------------------------------------------------------------------
  // Scenarios
  // ---------------------------------------------------------------------

  /**
   * A missing image is downloaded, then served: after the miss and a
   * successful non-empty transfer the image is cached at the target, and a
   * second lookup of the same target starts no download.
   */
  lemma DownloadThenHit(w: World, filePath: string, jobId: int, written: nat,
                        mkdirSucceeds: bool, laterJobId: int)
    requires !IsCacheHit(w.files, filePath) && written > 0
    ensures var w2 := Run(w, [CacheChecked(filePath, true, jobId), Completed(filePath, 200, written)]);
      && w2.st.cacheable && w2.st.cachedImagePath == Some(filePath)
      && !w2.st.downloading && w2.st.jobId == None
      && IsCacheHit(w2.files, filePath)
      && Apply(w2, CacheChecked(filePath, mkdirSucceeds, laterJobId)).st == w2.st
  {
    var w1 := Apply(w, CacheChecked(filePath, true, jobId));
    var w2 := Apply(w1, Completed(filePath, 200, written));
    assert Run(w, [CacheChecked(filePath, true, jobId), Completed(filePath, 200, written)])
        == Run(w1, [Completed(filePath, 200, written)]);
    assert Run(w1, [Completed(filePath, 200, written)]) == Run(w2, []) == w2;
  }

  /**
   * A transfer of zero bytes with a success status is marked cached, yet the
   * next lookup of that target misses and downloads again.
   */
  lemma EmptyDownloadIsShownButMisses(w: World, filePath: string)
    ensures var w' := OnComplete(w, filePath, 200, 0);
      && w'.st.cacheable && w'.st.cachedImagePath == Some(filePath)
      && !IsCacheHit(w'.files, filePath)
  {
  }

  /**
   * A stale error callback is not told apart from the current job's: the
   * error guard reads only `downloading`. A first download to `oldPath` is
   * superseded by a new source whose download to `newPath` is under way; when
   * the first transfer's rejection arrives it deletes `oldPath` and wipes the
   * new job from the state although that job still runs.
   *
   * The trace needs a second lookup on one component, that is, a caller that
   * processes the source again. In image.js `_processSource` is called only
   * from `componentWillMount`, so one component looks up once and this trace
   * does not arise there; the lemma states what the handlers would do.
   */
  lemma StaleErrorClearsNewerJob(w: World, oldPath: string, newPath: string, oldJob: int, newJob: int)
    requires JobTracked(w.st) && oldJob != 0 && newJob != 0
    requires !IsCacheHit(w.files, oldPath) && !IsCacheHit(w.files, newPath)
    ensures var w1 := Run(w, [CacheChecked(oldPath, true, oldJob), SourceProcessed(true),
                              CacheChecked(newPath, true, newJob)]);
      && w1.st.downloading && w1.st.jobId == Some(newJob)
      && var w2 := Apply(w1, Failed(oldPath));
      && !w2.st.downloading && w2.st.jobId == None
      && !w2.st.cacheable && w2.st.cachedImagePath == None
      && oldPath !in w2.files
  {
    var a := Apply(w, CacheChecked(oldPath, true, oldJob));
    var b := Apply(a, SourceProcessed(true));
    assert a.files.Keys <= w.files.Keys;
    assert !IsCacheHit(b.files, newPath);
    var c := Apply(b, CacheChecked(newPath, true, newJob));
    assert Run(w, [CacheChecked(oldPath, true, oldJob), SourceProcessed(true), CacheChecked(newPath, true, newJob)])
        == Run(a, [SourceProcessed(true), CacheChecked(newPath, true, newJob)]);
    assert Run(a, [SourceProcessed(true), CacheChecked(newPath, true, newJob)])
        == Run(b, [CacheChecked(newPath, true, newJob)]);
  }

  /**
   * Unmounting in the middle of a transfer stops the job; the rejection that
   * follows deletes the partial file and leaves the state as the stop left it.
   */
  lemma UnmountThenErrorKeepsState(w: World, filePath: string)
    requires JobTracked(w.st) && w.st.downloading
    ensures var w2 := Run(w, [Unmounted, Failed(filePath)]);
      && w2.st == w.st.(downloading := false, jobId := None)
      && w2.files == DeleteFile(w.files, filePath)
  {
    var w1 := Apply(w, Unmounted);
    var w2 := Apply(w1, Failed(filePath));
    assert Run(w, [Unmounted, Failed(filePath)]) == Run(w1, [Failed(filePath)]);
    assert Run(w1, [Failed(filePath)]) == Run(w2, []) == w2;
  }
}
