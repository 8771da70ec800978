/**
 * Where a cached image lives on disk: the parent of the documents directory,
 * then `Library/Caches/<bundleIdentifier>/<host>/<cacheKey>` (image.js,
 * `checkImageCache`).
 */
module Paths {

  /** `s.split(sep)` for a one-character separator: the pieces between separators. */
  function Split(s: string, sep: char): (parts: seq<string>)
    ensures |parts| >= 1
    ensures forall i :: 0 <= i < |parts| ==> sep !in parts[i]
    ensures sep in s <==> |parts| > 1
  {
    if s == [] then [""]
    else
      var rest := Split(s[1..], sep);
      if s[0] == sep then [""] + rest
      else [[s[0]] + rest[0]] + rest[1..]
  }

  /** `parts.join(sep)`; the empty array joins to the empty string. */
  function Join(parts: seq<string>, sep: char): string
  {
    if parts == [] then ""
    else if |parts| == 1 then parts[0]
    else parts[0] + [sep] + Join(parts[1..], sep)
  }

  lemma JoinPrepend(x: string, parts: seq<string>, sep: char)
    requires |parts| >= 1
    ensures Join([x + parts[0]] + parts[1..], sep) == x + Join(parts, sep)
  {
  }

  lemma {:induction false} JoinSnoc(xs: seq<string>, y: string, sep: char)
    requires |xs| >= 1
    ensures Join(xs + [y], sep) == Join(xs, sep) + [sep] + y
  {
    if |xs| == 1 {
      assert (xs + [y])[1..] == [y];
    } else {
      assert (xs + [y])[1..] == xs[1..] + [y];
      JoinSnoc(xs[1..], y, sep);
    }
  }

  /** Splitting and joining again on the same separator gives back the string. */
  lemma {:induction false} JoinSplit(s: string, sep: char)
    ensures Join(Split(s, sep), sep) == s
  {
    if s != [] {
      var rest := Split(s[1..], sep);
      JoinSplit(s[1..], sep);
      if s[0] == sep {
        assert ([""] + rest)[1..] == rest;
        assert [s[0]] + s[1..] == s;
      } else {
        JoinPrepend([s[0]], rest, sep);
        assert [s[0]] + s[1..] == s;
      }
    }
  }

  /** The piece after the last separator. */
  function LastSegment(p: string): string
  {
    var parts := Split(p, '/');
    parts[|parts| - 1]
  }

  /** `p.split('/')`, drop the last piece, `join('/')` (image.js:61-63). */
  function ParentDirectory(p: string): string
  {
    var parts := Split(p, '/');
    Join(parts[..|parts| - 1], '/')
  }

  /**
   * The parent directory is everything before the last '/', and it is empty
   * when the path has no '/'.
   */
  lemma ParentDirectoryIsPrefix(p: string)
    ensures '/' !in p ==> ParentDirectory(p) == ""
    ensures '/' in p ==> p == ParentDirectory(p) + "/" + LastSegment(p)
    ensures '/' !in LastSegment(p)
  {
    var parts := Split(p, '/');
    JoinSplit(p, '/');
    if '/' in p {
      assert parts == parts[..|parts| - 1] + [parts[|parts| - 1]];
      JoinSnoc(parts[..|parts| - 1], parts[|parts| - 1], '/');
    }
  }

  /** `dirPath` of `checkImageCache` (image.js:61-63). */
  function CacheDirectory(documentDirectoryPath: string, bundleIdentifier: string, host: string): string
  {
    ParentDirectory(documentDirectoryPath) + "/Library/Caches/" + bundleIdentifier + "/" + host
  }

  /** `filePath` of `checkImageCache` (image.js:64). */
  function CacheFilePath(dirPath: string, cacheKey: string): string
  {
    dirPath + "/" + cacheKey
  }

  /**
   * The cache directory is a sibling of the documents directory: both sit
   * under the same root, the documents directory as its last segment and the
   * cache as `Library/Caches/<bundleIdentifier>/<host>`.
   */
  lemma CacheDirectoryIsSiblingOfDocuments(documentDirectoryPath: string, bundleIdentifier: string, host: string)
    requires '/' in documentDirectoryPath
    ensures var root := ParentDirectory(documentDirectoryPath) + "/";
      && documentDirectoryPath == root + LastSegment(documentDirectoryPath)
      && '/' !in LastSegment(documentDirectoryPath)
      && CacheDirectory(documentDirectoryPath, bundleIdentifier, host)
         == root + "Library/Caches/" + bundleIdentifier + "/" + host
  {
    ParentDirectoryIsPrefix(documentDirectoryPath);
    var root := ParentDirectory(documentDirectoryPath) + "/";
    assert ParentDirectory(documentDirectoryPath) + "/Library/Caches/" == root + "Library/Caches/";
  }

  /** Within one directory, different keys give different files. */
  lemma CacheFilePathInjective(dirPath: string, key1: string, key2: string)
    ensures CacheFilePath(dirPath, key1) == CacheFilePath(dirPath, key2) <==> key1 == key2
  {
    var n := |dirPath| + 1;
    if CacheFilePath(dirPath, key1) == CacheFilePath(dirPath, key2) {
      assert key1 == CacheFilePath(dirPath, key1)[n..];
      assert key2 == CacheFilePath(dirPath, key2)[n..];
    }
  }
}
