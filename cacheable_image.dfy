/**
 * The `CacheableImage` component of image.js: its state fields, its handlers
 * and the files it reads and deletes through react-native-fs. Each method is
 * one handler run to completion; its contract is the matching transition of
 * module ImageState, where the properties of the handlers are proved.
 */
module Component {
  import opened Wrappers
  import opened Paths
  import opened CacheKey
  import opened RemoteSource
  import opened ImageState

  /** The device storage as react-native-fs exposes it. */
  class FileSystem {
    /** `DocumentDirectoryPath` of react-native-fs. */
    const documentDirectoryPath: string
    var files: Files

    constructor (documentDirectoryPath: string, files: Files)
      ensures this.documentDirectoryPath == documentDirectoryPath && this.files == files
    {
      this.documentDirectoryPath := documentDirectoryPath;
      this.files := files;
    }
  }

  /** The arguments `_processSource` hands to `checkImageCache`. */
  datatype CacheRequest = CacheRequest(imageUri: string, cachePath: string, cacheKey: string)

  /** The options given to `RNFS.downloadFile`, with the job id it returns. */
  datatype DownloadJob = DownloadJob(jobId: int, fromUrl: string, toFile: string, background: bool)

  class CacheableImage {
    // props
    const bundleIdentifier: string
    const useQueryParamsInCacheKey: QueryParamsPolicy
    const downloadInBackground: bool
    const source: Source

    // this.state
    var isRemote: bool
    var cachedImagePath: Option<string>
    var cacheable: bool
    var downloading: bool
    var jobId: Option<int>

    function State(): ImageState
      reads this
    {
      ImageState(isRemote, cachedImagePath, cacheable, downloading, jobId)
    }

    constructor (bundleIdentifier: string, useQueryParamsInCacheKey: QueryParamsPolicy,
                 downloadInBackground: bool, source: Source)
      ensures State() == Initial
      ensures this.bundleIdentifier == bundleIdentifier
      ensures this.useQueryParamsInCacheKey == useQueryParamsInCacheKey
      ensures this.downloadInBackground == downloadInBackground && this.source == source
    {
      this.bundleIdentifier := bundleIdentifier;
      this.useQueryParamsInCacheKey := useQueryParamsInCacheKey;
      this.downloadInBackground := downloadInBackground;
      this.source := source;
      isRemote, cachedImagePath, cacheable, downloading, jobId := false, None, true, false, None;
    }

    /** `imageDownloadBegin`: the transfer has its response headers. */
    method ImageDownloadBegin(statusCode: int, infoJobId: int)
      modifies this
      ensures State() == OnBegin(old(State()), statusCode, infoJobId)
    {
      if !(statusCode == 404 || statusCode == 403) {
        downloading, jobId := true, Some(infoJobId);
      }
    }

    /** `imageDownloadProgress`. */
    method ImageDownloadProgress(contentLength: int, bytesWritten: int)
      modifies this
      ensures State() == OnProgress(old(State()), contentLength, bytesWritten)
    {
      if bytesWritten != 0 && contentLength == bytesWritten {
        downloading, jobId := false, None;
      }
    }

    /** `_deleteFilePath`: unlink the file if it exists. */
    method DeleteFilePath(fs: FileSystem, filePath: string)
      modifies fs
      ensures fs.files == DeleteFile(old(fs.files), filePath)
    {
      if filePath in fs.files {
        fs.files := fs.files - {filePath};
      }
    }

    /** `_stopDownload`; `stopped` is the job id handed to `RNFS.stopDownload`, if any. */
    method StopDownload() returns (stopped: Option<int>)
      modifies this
      ensures State() == StopJob(old(State()))
      ensures stopped == if Truthy(old(jobId)) then old(jobId) else None
    {
      if !Truthy(jobId) {
        return None;
      }
      stopped := jobId;
      downloading, jobId := false, None;
    }

    /**
     * `checkImageCache` up to the start of the download: `stat` the target,
     * then on a miss `mkdir` its directory (which succeeds or not), clean up
     * and start the transfer, whose job is returned.
     */
    method CheckImageCache(fs: FileSystem, imageUri: string, cachePath: string, cacheKey: string,
                           mkdirSucceeds: bool, newJobId: int)
      returns (download: Option<DownloadJob>, stopped: Option<int>)
      modifies this, fs
      ensures var filePath := CacheFilePath(CacheDirectory(fs.documentDirectoryPath, bundleIdentifier, cachePath), cacheKey);
        && World(State(), fs.files) == OnLookup(World(old(State()), old(fs.files)), filePath, mkdirSucceeds, newJobId)
        && download == (if IsCacheHit(old(fs.files), filePath) || !mkdirSucceeds then None
                        else Some(DownloadJob(newJobId, imageUri, filePath, downloadInBackground)))
        && stopped == (if !IsCacheHit(old(fs.files), filePath) && mkdirSucceeds && Truthy(old(jobId))
                       then old(jobId) else None)
    {
      // split/pop/join of image.js:61-64, which CacheDirectory and CacheFilePath state
      stopped := None;
      var pathArr := Split(fs.documentDirectoryPath, '/');
      pathArr := pathArr[..|pathArr| - 1];
      var dirPath := Join(pathArr, '/') + "/Library/Caches/" + bundleIdentifier + "/" + cachePath;
      var filePath := dirPath + "/" + cacheKey;

      if filePath in fs.files && fs.files[filePath] > 0 {
        cacheable, cachedImagePath := true, Some(filePath);
        download := None;
      } else if !mkdirSucceeds {
        DeleteFilePath(fs, filePath);
        cacheable, cachedImagePath := false, None;
        download := None;
      } else {
        if cacheable && PathTruthy(cachedImagePath) {
          DeleteFilePath(fs, cachedImagePath.value);
        }
        if Truthy(jobId) {
          stopped := StopDownload();
        }
        download := Some(DownloadJob(newJobId, imageUri, filePath, downloadInBackground));
        downloading, jobId := true, Some(newJobId);
      }
    }

    /** The download promise resolves; the transfer has left `written` bytes at `filePath`. */
    method DownloadCompleted(fs: FileSystem, filePath: string, statusCode: int, written: nat)
      modifies this, fs
      ensures World(State(), fs.files) == OnComplete(World(old(State()), old(fs.files)), filePath, statusCode, written)
    {
      fs.files := fs.files[filePath := written];
      downloading, jobId := false, None;
      if statusCode == 404 || statusCode == 403 {
        cacheable, cachedImagePath := false, None;
      } else {
        cacheable, cachedImagePath := true, Some(filePath);
      }
    }

    /** The download promise rejects (transfer error, or the job was stopped). */
    method DownloadFailed(fs: FileSystem, filePath: string)
      modifies this, fs
      ensures World(State(), fs.files) == OnError(World(old(State()), old(fs.files)), filePath)
    {
      DeleteFilePath(fs, filePath);
      if downloading {
        cacheable, cachedImagePath, downloading, jobId := false, None, false, None;
      }
    }

    /**
     * `_processSource`: for a remote source, stop any job and derive the key
     * from the parsed `url` of `source.uri`; the request returned is the
     * lookup `checkImageCache` then performs.
     */
    method ProcessSource(source: Source, skipSourceCheck: Option<bool>, url: Url, sha1: string -> string)
      returns (request: Option<CacheRequest>, stopped: Option<int>)
      modifies this
      ensures State() == OnProcessSource(old(State()), IsRemoteSource(source, skipSourceCheck))
      ensures stopped == if IsRemoteSource(source, skipSourceCheck) && Truthy(old(jobId)) then old(jobId) else None
      ensures request == if IsRemoteSource(source, skipSourceCheck)
                         then Some(CacheRequest(source.uri, url.host, CacheKeyFor(sha1, url, useQueryParamsInCacheKey)))
                         else None
    {
      stopped := None;
      if IsRemoteSource(source, skipSourceCheck) {
        if Truthy(jobId) {
          stopped := StopDownload();
        }
        // the statements of image.js:187-200, which CacheKeyFor states
        var material := KeyMaterial(url, useQueryParamsInCacheKey);
        var ext := TypeText(url.pathname);
        var cacheKey := sha1(material) + (if |ext| < |url.pathname| then "." + ext else "");
        request := Some(CacheRequest(source.uri, url.host, cacheKey));
        isRemote := true;
      } else {
        request := None;
        isRemote := false;
      }
    }

    /** `componentWillMount`: process the `source` prop with the check skipped. */
    method ComponentWillMount(url: Url, sha1: string -> string)
      returns (request: Option<CacheRequest>, stopped: Option<int>)
      modifies this
      ensures State() == OnProcessSource(old(State()), source.Object? && source.hasUri)
      ensures request == if source.Object? && source.hasUri
                         then Some(CacheRequest(source.uri, url.host, CacheKeyFor(sha1, url, useQueryParamsInCacheKey)))
                         else None
      ensures stopped == if source.Object? && source.hasUri && Truthy(old(jobId)) then old(jobId) else None
    {
      request, stopped := ProcessSource(source, Some(true), url, sha1);
    }

    /** `componentWillUnmount`. */
    method ComponentWillUnmount() returns (stopped: Option<int>)
      modifies this
      ensures State() == OnUnmount(old(State()))
      ensures stopped == if old(downloading) && Truthy(old(jobId)) then old(jobId) else None
    {
      stopped := None;
      if downloading && Truthy(jobId) {
        stopped := StopDownload();
      }
    }
  }

  /**
   * A component mounted on a remote image that is not on disk: the lookup
   * misses and starts a download; once the transfer completes the component
   * shows the downloaded file, which a second component with the same
   * source then finds without downloading.
   */
  method MountDownloadAndReuse(documentDirectoryPath: string, bundleIdentifier: string, uri: string,
                               url: Url, sha1: string -> string, jobId: int, written: nat)
    returns (shown: Option<string>, second: Option<DownloadJob>)
    requires written > 0
    ensures shown == Some(CacheFilePath(CacheDirectory(documentDirectoryPath, bundleIdentifier, url.host),
                                        CacheKeyFor(sha1, url, Flag(false))))
    ensures second == None
  {
    var key := CacheKeyFor(sha1, url, Flag(false));
    var filePath := CacheFilePath(CacheDirectory(documentDirectoryPath, bundleIdentifier, url.host), key);
    var fs := new FileSystem(documentDirectoryPath, map[]);
    var image := new CacheableImage(bundleIdentifier, Flag(false), false, Object(true, uri, true));
    var request, _ := image.ComponentWillMount(url, sha1);
    assert request == Some(CacheRequest(uri, url.host, key));
    var download, _ := image.CheckImageCache(fs, uri, url.host, key, true, jobId);
    assert download == Some(DownloadJob(jobId, uri, filePath, false));
    image.ImageDownloadBegin(200, jobId);
    image.DownloadCompleted(fs, filePath, 200, written);
    assert image.cacheable && image.cachedImagePath == Some(filePath);
    assert IsCacheHit(fs.files, filePath);
    shown := image.cachedImagePath;

    var other := new CacheableImage(bundleIdentifier, Flag(false), false, Object(true, uri, true));
    var again, _ := other.ComponentWillMount(url, sha1);
    assert again == Some(CacheRequest(uri, url.host, key));
    var stoppedByOther;
    second, stoppedByOther := other.CheckImageCache(fs, uri, url.host, key, true, jobId + 1);
    assert other.cachedImagePath == shown;
  }
}
