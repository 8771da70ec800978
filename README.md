# react-native-cacheable-image: the image cache, in Dafny

`CacheableImage` (image.js) is a React Native component that shows a remote
image from a disk cache. On mount it decides whether its `source` is remote.
It derives a cache key from the URL: a SHA-1 digest of the pathname, optionally
followed by query values, plus the pathname's extension. Then it looks the key
up under `<parent of DocumentDirectoryPath>/Library/Caches/<bundleIdentifier>/<host>/`.
On a hit it shows the file. On a miss it creates the directory, deletes the
file it showed before (if any), stops its running download (if any) and starts
a new one. The component keeps five state fields. `_processSource` sets
`isRemote`. The lookup and the download's callbacks update `cachedImagePath`,
`cacheable`, `downloading` and `jobId`.

In image.js, `_processSource` has one caller, `componentWillMount`
(image.js:219), and `checkImageCache` is called only from `_processSource`
(image.js:202). So a component looks up exactly once, and at that lookup
`cachedImagePath` and `jobId` are still null. The handlers nonetheless test for
a shown file and a running job (image.js:93, 99, 180). The model keeps those
branches and lets events come in any order (`ImageState.Run`). Traces with a
second lookup on one component (a superseded job, a stale rejection, deleting
the file shown before) need a caller that processes the source again, which
image.js does not have. They show what the handlers would do in that case. The
invariant lemmas hold over all traces, so they cover the traces image.js
produces.

The project is split as follows:

- `paths.dfy` (module `Paths`): JavaScript `split`/`join` on `/`, the parent
  directory, the cache directory and the file path.
- `cache_key.dfy` (module `CacheKey`): the key material and the `forEach` that
  builds it. It also covers the regular expression `/.*\.(.*)/`, modelled with
  JavaScript's line terminators, and the key itself.
- `remote_source.dfy` (module `RemoteSource`): the test for a remote source,
  including JavaScript's loose `!= ''`.
- `image_state.dfy` (module `ImageState`): one pure transition per handler, on
  the five fields and on a map from file path to size. It also defines event
  traces, the job invariant and the scenario lemmas.
- `cacheable_image.dfy` (module `Component`): the classes `FileSystem` and
  `CacheableImage`. Each handler is a method that updates the fields in place.
  Its contract is the matching `ImageState` transition.

The digest is a parameter `sha1: string -> string`. The parsed URL (pathname,
host, query map) is an input. Native file-system outcomes are parameters:
whether `mkdir` succeeds, the job id returned by `downloadFile`, status codes
and the number of bytes written.

Behaviours of the code that the model keeps, though a reader might not expect
them:

- The error handler resets the state only when the boolean `downloading` is
  set (image.js:140); it does not look at which job failed. If a component
  looked up a second time, a stale rejection from the superseded job would
  clear the newer job's state (`StaleErrorClearsNewerJob`).
- A 403/404 completion does not delete the downloaded file.
- A zero-size file is not purged at lookup. The download goes onto it.
- On a miss, a previously shown file is deleted even when it is the target
  itself (this needs a second lookup, as above).
- With `useQueryParamsInCacheKey: true`, the parsed query object is appended.
  Its string form is the constant `[object Object]`, so the query has no effect
  on the key.
- The "extension" is whatever follows the last `.` of the pathname, even in a
  directory segment (`TypeTextCanHoldSlash`).
- A successful download of zero bytes is shown as cached
  (`EmptyDownloadIsShownButMisses`).

## Model

| member | source | states |
|---|---|---|
| `Paths.Split` | image.js:61 | `split('/')` gives at least one piece, no piece holds the separator, and there is more than one piece exactly when the string holds it |
| `Paths.JoinSplit` | image.js:61-63 | `join` undoes `split` on the same separator |
| `Paths.ParentDirectoryIsPrefix` | image.js:61-63 | split/pop/join yields everything before the last `/`, and `""` when there is none; the dropped segment has no `/` |
| `Paths.CacheDirectoryIsSiblingOfDocuments` | image.js:60-63 | the cache directory is `<root>/Library/Caches/<bundleIdentifier>/<host>` where the documents directory is `<root>/<last segment>` |
| `Paths.CacheFilePathInjective` | image.js:64 | in one directory, two keys give the same file path exactly when they are equal |
| `CacheKey.AppendPresentIsSelected` | image.js:189-193 | the `forEach` left fold appends exactly the values of the listed names the query has, in list order, skipping absent ones |
| `CacheKey.KeyMaterial` | image.js:187-197 | material is pathname + selected values for a list, pathname alone for `false`, pathname + the query object's constant string for `true` |
| `CacheKey.SelectedValuesOnlyReadListed` | image.js:189-193 | the appended values depend only on the listed names' presence and values |
| `CacheKey.LineEnd` | image.js:199 | index of the first JavaScript line terminator, or the length; nothing before it is a terminator |
| `CacheKey.AfterLastDot` | image.js:199 | the result is the suffix that follows a `.` and holds no `.`, i.e. the text after the last `.` |
| `CacheKey.TypeText` | image.js:199-200 | the regex replacement never lengthens the pathname and shortens it exactly when the pathname holds a `.` |
| `CacheKey.SingleLineTypeText` | image.js:199 | on a pathname with no line terminator the replacement is the text after the last `.`, or the pathname itself when it has no `.` |
| `CacheKey.TypeTextOfPhoto` | image.js:199-200 | `/img/photo.jpg` has extension `jpg` |
| `CacheKey.TypeTextCanHoldSlash` | image.js:199-200 | `/a.b/c` has extension `b/c`: the key then holds a `/` |
| `CacheKey.CacheKeyFor` | image.js:199-200 | the key is `sha1(material) + "." + extension` when the pathname holds a `.`, and the bare digest otherwise |
| `CacheKey.SameKeyForAgreeingQueries` | image.js:186-200 | same pathname and queries agreeing on the listed names (any queries for a flag policy) give the same material and key |
| `CacheKey.KeysEqualIffDigestsEqual` | image.js:199-200 | for one pathname, two keys are equal exactly when the digests of their materials are |
| `CacheKey.ListedValueSeparatesKeys` | image.js:189-193 | with the list `["v"]`, `?v=2` and `?v=3` give different material |
| `CacheKey.ListedValuesCanCollide` | image.js:189-193 | values are joined with no separator, so `a=1&b=23` and `a=12&b=3` give the same material |
| `RemoteSource.IsRemoteSource` | image.js:168-177 | remote exactly when the source is an object with an own `uri` and, when the check is not skipped (`false`), it is not the props' source object |
| `ImageState.ApplyKeepsJobTracked` | image.js:39-150 | every handler keeps "`downloading` exactly when a truthy `jobId` is held" when job ids are non-zero |
| `ImageState.RunKeepsJobTracked` | image.js:39-226 | the same invariant holds after any trace of events |
| `ImageState.UnmountLeavesNoJob` | image.js:222-226 | under the invariant, unmounting leaves no download and no job id and changes nothing else |
| `ImageState.StopJobIdempotent` | image.js:209-216 | stopping is idempotent and a no-op without a truthy job id |
| `ImageState.CacheHitStartsNoDownload` | image.js:66-76 | a non-empty file at the target is served (`cacheable`, path = target), with download fields, `isRemote` and files unchanged |
| `ImageState.CacheMissStartsDownload` | image.js:89-118 | on a miss with the directory made: the new job is active, the file shown before is deleted, every other file (a zero-size target included) is kept, nothing is added |
| `ImageState.MkdirFailureForgetsImage` | image.js:147-150 | a failed `mkdir` deletes the target and clears `cacheable` and the path, leaving the download fields |
| `ImageState.DeniedBeginChangesNothing` | image.js:39-49 | a 403/404 begin leaves the state unchanged |
| `ImageState.CompletionOutcome` | image.js:120-134 | completion clears the job; the image is cached at the target exactly when the status is not 403/404; the file stays |
| `ImageState.ErrorOutcome` | image.js:135-145 | an error deletes the target; it resets the state only when `downloading` was set, and otherwise leaves it unchanged |
| `ImageState.DownloadThenHit` | image.js:66-134 | miss, then a non-empty successful transfer: the image is shown from the target, and a second lookup starts no download |
| `ImageState.EmptyDownloadIsShownButMisses` | image.js:69 | a zero-byte success is marked cached, though the next lookup misses |
| `ImageState.StaleErrorClearsNewerJob` | image.js:135-145 | given a second lookup on one component (which needs a caller image.js lacks), a superseded job's rejection wipes the newer, still running job from the state and deletes the old target |
| `ImageState.UnmountThenErrorKeepsState` | image.js:222-226 | unmount during a transfer stops the job; the following rejection only deletes the target |
| `Component.CacheableImage.constructor` | image.js:23-29 | initial state: not remote, no path, `cacheable`, not downloading, no job |
| `Component.CacheableImage.ImageDownloadBegin` | image.js:39-49 | new state is `OnBegin`: unchanged on 403/404, otherwise downloading with the reported job id |
| `Component.CacheableImage.ImageDownloadProgress` | image.js:51-57 | new state is `OnProgress`: job cleared exactly when the bytes written are non-zero and equal the content length |
| `Component.CacheableImage.DeleteFilePath` | image.js:154-164 | the file is gone afterwards and no other file changes |
| `Component.CacheableImage.StopDownload` | image.js:209-216 | new state is `StopJob`; returns the job id handed to `RNFS.stopDownload`, or none when `jobId` is falsy |
| `Component.CacheableImage.CheckImageCache` | image.js:59-150 | path built from the documents directory, bundle id, host and key; new state and files are `OnLookup`; a download job on that path is returned exactly on a miss with `mkdir` succeeding; on that path the old truthy job id is returned as handed to `RNFS.stopDownload` (image.js:99-101) |
| `Component.CacheableImage.DownloadCompleted` | image.js:120-134 | new state and files are `OnComplete` |
| `Component.CacheableImage.DownloadFailed` | image.js:135-145 | new state and files are `OnError` |
| `Component.CacheableImage.ProcessSource` | image.js:166-207 | new state is `OnProcessSource` (stop + remote, or not remote); for a remote source it returns the uri, host and `CacheKeyFor` key to look up, and the truthy job id it hands to `RNFS.stopDownload` (image.js:180-182) |
| `Component.CacheableImage.ComponentWillMount` | image.js:218-220 | processes the `source` prop with the check skipped: remote exactly when it is an object with a `uri`; returns the request and any job id stopped |
| `Component.CacheableImage.ComponentWillUnmount` | image.js:222-226 | new state is `OnUnmount`; the job id is handed to `RNFS.stopDownload` (returned) exactly when `downloading` and a truthy `jobId` were both set |
| `Component.MountDownloadAndReuse` | image.js:59-134 | a mounted component downloads a missing image and shows the cache file of its key, `<parent>/Library/Caches/<bundle>/<host>/<key>`; a second component with the same source finds it and starts no download |

## Left out

- Rendering (`render`, `renderCache`, `renderLocal`, `renderDefaultSource`, the activity indicator), `shouldComponentUpdate`, prop declarations and defaults, and the unused `checkNetwork`/`networkAvailable`: user interface, not cache logic.
- react-native-fs internals: `stat`, `mkdir`, `downloadFile`, `stopDownload`, `exists` and `unlink` are native code. Their outcomes are parameters, and files are a path-to-size map of regular files. Directories are not modelled, and neither is the backup-exclusion attribute `mkdir` sets.
- `stat` failures other than a missing file are not modelled. A directory at the target path is not modelled either.
- A failing `unlink` leaves the file in place; its error is swallowed. The model always removes the file.
- The transfer's bytes appear at the target only when the download completes. A partial file during the transfer is not modelled. So the model cannot show that a stale rejection deletes a newer download's partial file on the same path.
- Promise timing and `setState` batching: each handler is one atomic event, and interleavings inside a handler are not modelled.
- SHA-1 (crypto-js) and URL parsing (url-parse) are library code. The digest is a parameter; pathname, host and query are inputs, and duplicate query names are taken as already resolved into a map.
- `ImageState.ApplyKeepsJobTracked`: holds only for non-zero job ids. The native module numbers jobs from 1, which is not part of this model.
- `ImageState.OnProgress`: the floating-point test `contentLength / bytesWritten == 1` is modelled as integer equality with a non-zero divisor.
- `RemoteSource.IsRemoteSource`: objects whose string conversion is `""` are not modelled (objects convert to `[object Object]`). `skipSourceCheck` is a boolean or absent.
