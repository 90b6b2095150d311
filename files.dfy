/** Upload file-type detection (backend/app/utils/files.py): the extension
    of a file name, the allow-list, and the image/video classification. */
module Files {
  import opened Wrappers
  import PyText
  import PyPath

  const ImageExtensions: set<string> := {".png", ".jpg", ".jpeg", ".webp"}
  const VideoExtensions: set<string> := {".mp4", ".mov", ".mkv", ".avi", ".webm"}

  /** `get_file_extension`: the `splitext` extension, lower-cased. */
  function GetFileExtension(filename: string): (ext: string)
    ensures ext == "" || (ext[0] == '.' && '.' !in ext[1..] && '/' !in ext)
    ensures ext == PyText.Lower(PyPath.Splitext(filename).1)
  {
    var e := PyPath.Splitext(filename).1;
    PyPath.SplitextExtensionShape(filename);
    PyText.Lower(e)
  }

  /** A file name has an extension exactly when its last component has a dot
      preceded by something other than dots: leading dots do not count. */
  lemma ExtensionPresent(filename: string)
    ensures GetFileExtension(filename) != "" <==> PyPath.HasExtensionDot(PyPath.Basename(filename))
  {
    PyPath.SplitextNonEmpty(filename);
  }

  /** `allowed_file`. */
  predicate AllowedFile(filename: string) {
    var ext := GetFileExtension(filename);
    ext in ImageExtensions || ext in VideoExtensions
  }

  /** `detect_media_type`: "image" or "video", or the `ValueError` message. */
  function DetectMediaType(filename: string): (r: Result<string, string>)
    ensures r.Success? ==> r.value in {"image", "video"}
    ensures r == Success("image") <==> GetFileExtension(filename) in ImageExtensions
    ensures r == Success("video") <==> GetFileExtension(filename) in VideoExtensions
    ensures r.Failure? ==> r.error == "Unsupported file extension: " + GetFileExtension(filename)
  {
    var ext := GetFileExtension(filename);
    if ext in ImageExtensions then Success("image")
    else if ext in VideoExtensions then Success("video")
    else Failure("Unsupported file extension: " + ext)
  }

  /** No extension is both an image and a video extension. */
  lemma ExtensionSetsDisjoint()
    ensures ImageExtensions !! VideoExtensions
  {
  }

  /** The upload route's two checks agree: a file is allowed exactly when
      its media type can be detected. */
  lemma AllowedIffDetected(filename: string)
    ensures AllowedFile(filename) <==> DetectMediaType(filename).Success?
  {
  }

  /** Classification ignores letter case: a name and its lower-cased form
      have the same extension, so "A.PNG" and "a.png" classify alike. */
  lemma ExtensionIgnoresCase(filename: string)
    ensures GetFileExtension(PyText.Lower(filename)) == GetFileExtension(filename)
  {
    PyPath.SplitextLowerExt(filename);
    PyText.LowerIdempotent(PyPath.Splitext(filename).1);
  }

  /** Two names that differ only in letter case are classified alike. */
  lemma DetectIgnoresCase(f: string, g: string)
    requires PyText.Lower(f) == PyText.Lower(g)
    ensures DetectMediaType(f) == DetectMediaType(g)
    ensures AllowedFile(f) <==> AllowedFile(g)
  {
    ExtensionIgnoresCase(f);
    ExtensionIgnoresCase(g);
  }

  /** A plain file name `stem.ext` has the extension `.ext`, lower-cased. */
  lemma ExtensionOfName(stem: string, ext: string)
    requires '/' !in stem && stem != [] && stem[0] != '.' && '/' !in ext && '.' !in ext
    ensures GetFileExtension(stem + "." + ext) == PyText.Lower("." + ext)
  {
    PyPath.SplitextJoin("", stem, ext);
    assert PyPath.Join("", stem + "." + ext) == stem + "." + ext;
  }

  /** Leading dots do not make an extension: a name whose last component
      is dots only up to its last dot (".png", "..png", "dir/.bashrc") has
      no extension, so it is refused. */
  lemma DotFileHasNoExtension(dir: string, dots: string, ext: string)
    requires PyPath.AllDots(dots) && '/' !in ext && '.' !in ext
    ensures var name := PyPath.Join(dir, dots + "." + ext);
      GetFileExtension(name) == "" && !AllowedFile(name)
  {
    assert forall i :: 0 <= i < |dots| ==> dots[i] != '/';
    var pre := PyPath.DirPrefix(dir);
    var name := dots + "." + ext;
    assert name[0] == '.';
    PyPath.JoinShape(dir, name);
    assert pre + name == pre + dots + "." + ext;
    DottedNoExtension(pre, dots, ext);
  }

  lemma DottedNoExtension(pre: string, dots: string, ext: string)
    requires pre == "" || pre[|pre| - 1] == '/'
    requires PyPath.AllDots(dots) && '/' !in dots && '/' !in ext && '.' !in ext
    ensures GetFileExtension(pre + dots + "." + ext) == ""
  {
    var p := pre + dots + "." + ext;
    PyPath.JoinedIndices(pre, dots, ext);
    assert PyPath.AllDots(p[|pre|..|pre| + |dots|]);
    PyPath.SplitextNone(p, |pre| - 1, |pre| + |dots|);
    assert PyText.Lower("") == "";
  }

  /** A file whose extension is ".gif" is refused with the extension named
      in the message. */
  lemma RefusedGif(filename: string)
    requires GetFileExtension(filename) == ".gif"
    ensures DetectMediaType(filename) == Failure("Unsupported file extension: " + ".gif")
    ensures !AllowedFile(filename)
  {
    var ext := GetFileExtension(filename);
    assert ext[1] == 'g';
    assert ext !in ImageExtensions && ext !in VideoExtensions;
  }
}
