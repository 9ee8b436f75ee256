// Course video uploads: the validator that runs before any storage call
// (size, MIME type, extension, in that order) and the upload that stores a
// valid file under a path built from the course, the module, a fresh video
// id and the file's own extension. Storage and the `course_videos` table
// are maps and a sequence; the id, the public URL and the outcome of the
// storage and database calls are inputs.

module Storage {
  import opened Common

  const MaxVideoSize: int := 500 * 1024 * 1024

  const SupportedFormats: seq<string> :=
    ["video/mp4", "video/webm", "video/quicktime", "video/x-msvideo", "video/x-flv", "video/x-matroska"]

  const SupportedExtensions: seq<string> := [".mp4", ".webm", ".mov", ".avi", ".flv", ".mkv", ".m4v"]

  // ---------------------------------------------------------------------------
  // Path helpers
  // ---------------------------------------------------------------------------

  /** The part of a path after its last '/'. */
  function BaseName(path: string): (b: string)
    ensures |b| <= |path| && b == path[|path| - |b|..]
    ensures '/' !in b
    ensures |b| < |path| ==> path[|path| - |b| - 1] == '/'
  {
    if path == [] then []
    else if path[|path| - 1] == '/' then []
    else BaseName(path[..|path| - 1]) + [path[|path| - 1]]
  }

  /** The index of the last occurrence of `c` in `s`, if any. */
  function LastIndex(s: string, c: char): (r: int)
    ensures -1 <= r < |s|
    ensures r >= 0 ==> s[r] == c
    ensures forall k :: r < k < |s| ==> s[k] != c
    ensures r < 0 ==> c !in s
  {
    if s == [] then -1
    else if s[|s| - 1] == c then |s| - 1
    else LastIndex(s[..|s| - 1], c)
  }

  predicate AllDots(s: string) {
    forall k :: 0 <= k < |s| ==> s[k] == '.'
  }

  /**
   * The extension `os.path.splitext` splits off: from the last '.' of the
   * base name to its end, unless everything before that dot in the base
   * name is dots too (".mp4", "..mp4" have no extension).
   */
  function Extension(path: string): (e: string)
    ensures |e| <= |path|
    ensures e != "" ==> e[0] == '.'
  {
    var b := BaseName(path);
    var d := LastIndex(b, '.');
    if d < 0 || AllDots(b[..d]) then "" else b[d..]
  }

  /** The extension is a suffix of the path, starts with its only dot and holds no separator. */
  lemma ExtensionShape(path: string)
    ensures var e := Extension(path);
      |e| <= |path| && e == path[|path| - |e|..] &&
      (e != "" ==> e[0] == '.' && '.' !in e[1..] && '/' !in e)
  {
    var b := BaseName(path);
    var d := LastIndex(b, '.');
    var e := Extension(path);
    if e != "" {
      assert d >= 0 && e == b[d..];
      TailOfSuffix(path, b, d);
      TailAfterLast(b, d, '.');
      TailAvoids(b, d, '/');
    }
  }

  /** A tail of a suffix is a suffix. */
  lemma TailOfSuffix(s: string, b: string, d: nat)
    requires |b| <= |s| && b == s[|s| - |b|..] && d <= |b|
    ensures b[d..] == s[|s| - |b[d..]|..]
  {
  }

  /** The tail from the last occurrence of `c` holds no other `c`. */
  lemma TailAfterLast(b: string, d: nat, c: char)
    requires d < |b| && b[d] == c
    requires forall k :: d < k < |b| ==> b[k] != c
    ensures b[d..][0] == c && c !in b[d..][1..]
  {
    forall k | 0 <= k < |b[d..][1..]| ensures b[d..][1..][k] != c {
      assert b[d..][1..][k] == b[d + 1 + k];
    }
  }

  /** A tail of a sequence without `c` holds no `c`. */
  lemma TailAvoids(b: string, d: nat, c: char)
    requires d <= |b| && c !in b
    ensures c !in b[d..]
  {
    forall k | 0 <= k < |b[d..]| ensures b[d..][k] != c {
      assert b[d..][k] == b[d + k];
    }
  }

  lemma {:induction false} BaseNameAfterSlash(dir: string, name: string)
    requires '/' !in name
    ensures BaseName(dir + "/" + name) == name
    decreases |name|
  {
    var p := dir + "/" + name;
    if name != [] {
      assert p[..|p| - 1] == dir + "/" + name[..|name| - 1];
      assert name[|name| - 1] in name;
      BaseNameAfterSlash(dir, name[..|name| - 1]);
      assert name == name[..|name| - 1] + [name[|name| - 1]];
    }
  }

  lemma {:induction false} BaseNameOfPlainName(name: string)
    requires '/' !in name
    ensures BaseName(name) == name
    decreases |name|
  {
    if name != [] {
      assert name[|name| - 1] in name;
      var prefix := name[..|name| - 1];
      forall k | 0 <= k < |prefix| ensures prefix[k] != '/' {
        assert prefix[k] == name[k];
      }
      BaseNameOfPlainName(prefix);
      assert name == prefix + [name[|name| - 1]];
    }
  }

  /** The extension of a base name that is a stem (not only dots) followed by a dot and a dot-free tail. */
  lemma ExtensionOfStemAndSuffix(stem: string, ext: string)
    requires '/' !in stem + ext && !AllDots(stem)
    requires ext != [] && ext[0] == '.' && '.' !in ext[1..]
    ensures Extension(stem + ext) == ext
  {
    var b := stem + ext;
    BaseNameOfPlainName(b);
    var d := LastIndex(b, '.');
    assert b[|stem|] == '.';
    forall k | |stem| < k < |b| ensures b[k] != '.' {
      assert b[k] == ext[1..][k - |stem| - 1];
    }
    assert d == |stem|;
    assert b[..d] == stem;
    assert b[d..] == ext;
  }

  /** A dot-file such as ".mp4" has no extension. */
  lemma DotFileHasNoExtension(name: string)
    requires '/' !in name && name != [] && name[0] == '.' && '.' !in name[1..]
    ensures Extension(name) == ""
  {
    BaseNameOfPlainName(name);
    var d := LastIndex(name, '.');
    forall k | 0 < k < |name| ensures name[k] != '.' {
      assert name[k] == name[1..][k - 1];
    }
    assert d == 0;
  }

  /** A name without a dot has no extension, wherever its directory is. */
  lemma DotlessNameHasNoExtension(dir: string, name: string)
    requires '/' !in name && '.' !in name
    ensures Extension(dir + "/" + name) == ""
  {
    BaseNameAfterSlash(dir, name);
  }

  /** ASCII lower-casing, as `str.lower` does on ASCII letters. */
  function LowerChar(c: char): (l: char)
    ensures 'A' <= c <= 'Z' ==> 'a' <= l <= 'z'
    ensures !('A' <= c <= 'Z') ==> l == c
  {
    if 'A' <= c <= 'Z' then (c as int - 'A' as int + 'a' as int) as char else c
  }

  function Lower(s: string): (l: string)
    ensures |l| == |s|
    ensures forall k :: 0 <= k < |s| ==> l[k] == LowerChar(s[k])
  {
    if s == [] then [] else [LowerChar(s[0])] + Lower(s[1..])
  }

  // ---------------------------------------------------------------------------
  // The size message
  // ---------------------------------------------------------------------------

  /** n / d rounded to the nearest integer, ties to the even one, as `format(x, ".2f")` rounds. */
  function RoundHalfEven(n: nat, d: nat): nat
    requires d > 0
  {
    var q := n / d;
    var r := n % d;
    if 2 * r > d then q + 1
    else if 2 * r < d then q
    else if q % 2 == 0 then q else q + 1
  }

  /** The rounded quotient is within half a step of the exact one, and a tie goes to the even side. */
  lemma RoundHalfEvenIsNearest(n: nat, d: nat)
    requires d > 0
    ensures var q := RoundHalfEven(n, d);
      2 * n - d <= 2 * (q * d) <= 2 * n + d &&
      (2 * (q * d) == 2 * n - d || 2 * (q * d) == 2 * n + d ==> q % 2 == 0)
  {
    var q0 := n / d;
    var r := n % d;
    var m := q0 * d;
    assert n == m + r;
    assert (q0 + 1) * d == m + d;
  }

  /**
   * The size in MiB with two decimals, as the source formats `file_size /
   * (1024*1024)`. The division by a power of two is exact in a double for
   * any size below 2^53.
   */
  function MegabytesText(size: nat): (m: string)
    ensures |m| >= 4 && m[|m| - 3] == '.'
    ensures forall k :: 0 <= k < |m| && k != |m| - 3 ==> '0' <= m[k] <= '9'
  {
    var h := RoundHalfEven(size * 100, 1024 * 1024);
    var frac := h % 100;
    NatToString(h / 100) + "." + [DigitChar(frac / 10), DigitChar(frac % 10)]
  }

  function SizeMessage(size: nat): (m: string)
    ensures StartsWith(m, "File size exceeds 500MB limit. Size: ")
  {
    "File size exceeds 500MB limit. Size: " + MegabytesText(size) + "MB"
  }

  lemma SizeMessageExample()
    ensures SizeMessage(600 * 1024 * 1024) == "File size exceeds 500MB limit. Size: 600.00MB"
  {
    assert RoundHalfEven(600 * 1024 * 1024 * 100, 1024 * 1024) == 60000;
    assert NatToString(600) == "600" by {
      assert NatToString(6) == "6";
      assert NatToString(60) == "60";
    }
  }

  // ---------------------------------------------------------------------------
  // Validation
  // ---------------------------------------------------------------------------

  /** The validator's (is_valid, error_message) pair. */
  datatype Validation = Validation(isValid: bool, error: string)

  /**
   * Checks a video before upload: size, then emptiness, then the exact
   * MIME type, then the lower-cased extension; the first failure's message
   * is returned.
   */
  function ValidateVideoFile(fileSize: int, mimeType: string, filename: string): (r: Validation)
    ensures fileSize > MaxVideoSize ==> r == Validation(false, SizeMessage(fileSize))
    ensures fileSize == 0 ==> r == Validation(false, "File is empty")
    ensures fileSize <= MaxVideoSize && fileSize != 0 && mimeType !in SupportedFormats ==>
      r == Validation(false, "Unsupported video format: " + mimeType)
    ensures (fileSize <= MaxVideoSize && fileSize != 0 && mimeType in SupportedFormats &&
             Lower(Extension(filename)) !in SupportedExtensions) ==>
      r == Validation(false, "Unsupported video extension: " + Extension(filename))
    ensures r.isValid <==>
      fileSize <= MaxVideoSize && fileSize != 0 && mimeType in SupportedFormats &&
      Lower(Extension(filename)) in SupportedExtensions
    ensures r.isValid ==> r.error == ""
    ensures !r.isValid ==> r.error != ""
  {
    if fileSize > MaxVideoSize then Validation(false, SizeMessage(fileSize))
    else if fileSize == 0 then Validation(false, "File is empty")
    else if mimeType !in SupportedFormats then Validation(false, "Unsupported video format: " + mimeType)
    else if Lower(Extension(filename)) !in SupportedExtensions then
      Validation(false, "Unsupported video extension: " + Extension(filename))
    else Validation(true, "")
  }

  /** A file whose name has no extension is never valid, whatever its size and type. */
  lemma NamesWithoutExtensionRejected(fileSize: int, mimeType: string, filename: string)
    requires Extension(filename) == ""
    ensures !ValidateVideoFile(fileSize, mimeType, filename).isValid
  {
    EmptyExtensionUnsupported();
    var r := ValidateVideoFile(fileSize, mimeType, filename);
    assert Lower(Extension(filename)) !in SupportedExtensions;
  }

  lemma EmptyExtensionUnsupported()
    ensures Lower("") !in SupportedExtensions
  {
    assert Lower("") == [];
    forall k | 0 <= k < |SupportedExtensions| ensures |SupportedExtensions[k]| > 0 {
    }
  }

  /** The MIME check is exact: upper-case spellings of an accepted type are refused. */
  lemma MimeCheckIsCaseSensitive(filename: string)
    ensures ValidateVideoFile(1024, "VIDEO/MP4", filename) ==
      Validation(false, "Unsupported video format: VIDEO/MP4")
  {
    UpperCaseMimeUnsupported();
  }

  lemma UpperCaseMimeUnsupported()
    ensures "VIDEO/MP4" !in SupportedFormats
  {
    forall k | 0 <= k < |SupportedFormats| ensures SupportedFormats[k][0] == 'v' {
    }
    assert "VIDEO/MP4"[0] == 'V';
  }

  lemma LowerDotMP4()
    ensures Lower(".MP4") == ".mp4"
  {
    var l := Lower(".MP4");
    assert LowerChar('M') == 'm' && LowerChar('P') == 'p';
    assert l[0] == '.' && l[1] == 'm' && l[2] == 'p' && l[3] == '4';
  }

  lemma ExtensionOfLectureMP4()
    ensures Extension("lecture.MP4") == ".MP4"
  {
    assert "lecture.MP4" == "lecture" + ".MP4";
    assert !AllDots("lecture") by {
      assert "lecture"[0] != '.';
    }
    assert ".MP4"[1..] == "MP4";
    ExtensionOfStemAndSuffix("lecture", ".MP4");
  }

  /** The extension check is not: an upper-case extension of an accepted type passes. */
  lemma ExtensionCheckIgnoresCase()
    ensures ValidateVideoFile(1024, "video/mp4", "lecture.MP4") == Validation(true, "")
  {
    ExtensionOfLectureMP4();
    LowerDotMP4();
    assert Lower(Extension("lecture.MP4")) == SupportedExtensions[0];
    assert "video/mp4" == SupportedFormats[0];
  }

  /** Dot-files and names without a dot are refused whatever their size and type. */
  lemma DotFilesAndBareNamesRejected()
    ensures !ValidateVideoFile(1024, "video/mp4", ".mp4").isValid
    ensures !ValidateVideoFile(1024, "video/mp4", "uploads/lecture").isValid
  {
    assert ".mp4"[1..] == "mp4";
    DotFileHasNoExtension(".mp4");
    NamesWithoutExtensionRejected(1024, "video/mp4", ".mp4");
    assert "uploads/lecture" == "uploads" + "/" + "lecture";
    DotlessNameHasNoExtension("uploads", "lecture");
    NamesWithoutExtensionRejected(1024, "video/mp4", "uploads/lecture");
  }

  /** The largest accepted size is exactly 500 MiB. */
  lemma SizeBoundary(mimeType: string, filename: string)
    ensures ValidateVideoFile(MaxVideoSize + 1, mimeType, filename) ==
      Validation(false, SizeMessage(MaxVideoSize + 1))
    ensures ValidateVideoFile(MaxVideoSize, mimeType, filename).isValid <==>
      mimeType in SupportedFormats && Lower(Extension(filename)) in SupportedExtensions
  {
  }

  // ---------------------------------------------------------------------------
  // Upload
  // ---------------------------------------------------------------------------

  /** A row of `course_videos`. */
  datatype VideoRow = VideoRow(
    videoId: string,
    courseId: string,
    moduleId: string,
    originalFilename: string,
    storageFilename: string,
    storagePath: string,
    fileSize: int,
    mimeType: string,
    videoUrl: string,
    uploadedBy: string)

  /** How the storage upload and the metadata insert turn out. */
  datatype StoreOutcome =
    | StoreOk
    | StorageError(detail: string)
    | MetadataNotSaved
    | MetadataError(detail: string)

  datatype UploadResult =
    | UploadFailed(error: string)
    | UploadSucceeded(videoId: string, videoUrl: string, row: VideoRow, message: string)

  /** The object path of a video: its course, module, id and the name's own (case-kept) extension. */
  function StoragePath(courseId: string, moduleId: string, videoId: string, filename: string): (p: string)
    ensures |Extension(filename)| <= |p|
    ensures p[|p| - |Extension(filename)|..] == Extension(filename)
  {
    "courses/" + courseId + "/modules/" + moduleId + "/" + videoId + Extension(filename)
  }

  class VideoStore {
    /** The bucket: object path to content. */
    var objects: map<string, seq<bv8>>
    /** The `course_videos` table. */
    var videos: seq<VideoRow>

    constructor ()
      ensures objects == map[] && videos == []
    {
      objects, videos := map[], [];
    }

    /**
     * Uploads a course video. An invalid file fails with the validator's
     * message before any storage or database call; otherwise the content is
     * stored under the video's path and its metadata row is inserted, and a
     * failing call reports "Upload failed: ..." with whatever was already
     * written kept.
     */
    method UploadCourseVideo(courseId: string, moduleId: string, content: seq<bv8>, filename: string,
                             mimeType: string, fileSize: int, userId: string,
                             videoId: string, publicUrl: string, outcome: StoreOutcome)
      returns (r: UploadResult)
      modifies this
      ensures !ValidateVideoFile(fileSize, mimeType, filename).isValid ==>
        r == UploadFailed(ValidateVideoFile(fileSize, mimeType, filename).error) &&
        objects == old(objects) && videos == old(videos)
      ensures ValidateVideoFile(fileSize, mimeType, filename).isValid && outcome.StorageError? ==>
        r == UploadFailed("Upload failed: " + outcome.detail) && objects == old(objects) && videos == old(videos)
      ensures ValidateVideoFile(fileSize, mimeType, filename).isValid && !outcome.StorageError? ==>
        objects == old(objects)[StoragePath(courseId, moduleId, videoId, filename) := content]
      ensures ValidateVideoFile(fileSize, mimeType, filename).isValid && outcome.MetadataNotSaved? ==>
        r == UploadFailed("Upload failed: Failed to save video metadata to database") && videos == old(videos)
      ensures ValidateVideoFile(fileSize, mimeType, filename).isValid && outcome.MetadataError? ==>
        r == UploadFailed("Upload failed: " + outcome.detail) && videos == old(videos)
      ensures ValidateVideoFile(fileSize, mimeType, filename).isValid && outcome.StoreOk? ==>
        r.UploadSucceeded? && r.videoId == videoId && r.videoUrl == publicUrl &&
        r.row == VideoRow(videoId, courseId, moduleId, filename, videoId + Extension(filename),
                          StoragePath(courseId, moduleId, videoId, filename),
                          fileSize, mimeType, publicUrl, userId) &&
        r.message == "Video uploaded successfully: " + filename &&
        videos == old(videos) + [r.row]
    {
      var v := ValidateVideoFile(fileSize, mimeType, filename);
      if !v.isValid {
        return UploadFailed(v.error);
      }
      var storageFilename := videoId + Extension(filename);
      var path := StoragePath(courseId, moduleId, videoId, filename);
      r := StoreVideo(path, storageFilename, courseId, moduleId, content, filename, mimeType, fileSize, userId,
                      videoId, publicUrl, outcome);
    }

    /** Stores an object in the bucket, replacing any object at that path. */
    method PutObject(path: string, content: seq<bv8>)
      modifies this`objects
      ensures objects == old(objects)[path := content]
      ensures path in objects && objects[path] == content
    {
      objects := objects[path := content];
    }

    /** Inserts a row into the `course_videos` table. */
    method InsertVideo(row: VideoRow)
      modifies this`videos
      ensures videos == old(videos) + [row]
      ensures row in videos
    {
      videos := videos + [row];
    }

    /**
     * The upload of a validated video to `path` under `storageFilename`: the
     * content is stored unless storage fails, then the metadata row is
     * inserted unless the database fails; each failure reports
     * "Upload failed: ...".
     */
    method StoreVideo(path: string, storageFilename: string, courseId: string, moduleId: string,
                      content: seq<bv8>, filename: string, mimeType: string, fileSize: int, userId: string,
                      videoId: string, publicUrl: string, outcome: StoreOutcome)
      returns (r: UploadResult)
      modifies this
      ensures outcome.StorageError? ==>
        r == UploadFailed("Upload failed: " + outcome.detail) && objects == old(objects) && videos == old(videos)
      ensures !outcome.StorageError? ==> objects == old(objects)[path := content]
      ensures outcome.MetadataNotSaved? ==>
        r == UploadFailed("Upload failed: Failed to save video metadata to database") && videos == old(videos)
      ensures outcome.MetadataError? ==>
        r == UploadFailed("Upload failed: " + outcome.detail) && videos == old(videos)
      ensures outcome.StoreOk? ==>
        r.UploadSucceeded? && r.videoId == videoId && r.videoUrl == publicUrl &&
        r.row == VideoRow(videoId, courseId, moduleId, filename, storageFilename, path,
                          fileSize, mimeType, publicUrl, userId) &&
        r.message == "Video uploaded successfully: " + filename &&
        videos == old(videos) + [r.row]
    {
      if outcome.StorageError? {
        return UploadFailed("Upload failed: " + outcome.detail);
      }
      PutObject(path, content);
      var row := VideoRow(videoId, courseId, moduleId, filename, storageFilename, path,
                          fileSize, mimeType, publicUrl, userId);
      if outcome.MetadataNotSaved? {
        return UploadFailed("Upload failed: Failed to save video metadata to database");
      }
      if outcome.MetadataError? {
        return UploadFailed("Upload failed: " + outcome.detail);
      }
      InsertVideo(row);
      r := UploadSucceeded(videoId, publicUrl, row, "Video uploaded successfully: " + filename);
    }
  }
}
