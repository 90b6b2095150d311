/** The ffmpeg helpers (backend/app/utils/ffmpeg.py): the frame-rate probe,
    frame extraction and listing, audio extraction and the command that
    reassembles a video. The external processes are represented by their
    outcomes: the text ffprobe printed, whether a command failed and with
    which message, and the names `os.listdir` returned. */
module Ffmpeg {
  import opened Wrappers
  import PyText
  import PyNum
  import PyPath
  import LexOrder

  /** `ffmpeg_available`: both executables are on the search path. */
  predicate FfmpegAvailable(hasFfmpeg: bool, hasFfprobe: bool) {
    hasFfmpeg && hasFfprobe
  }

  // ---------------------------------------------------------------------------
  // Frame rate

  /** The ffprobe invocation that prints the first video stream's `r_frame_rate`. */
  function ProbeCommand(inputVideoPath: string): (cmd: seq<string>)
    ensures |cmd| == 10 && cmd[0] == "ffprobe" && cmd[9] == inputVideoPath
  {
    ["ffprobe", "-v", "0", "-select_streams", "v:0", "-of", "csv=p=0",
     "-show_entries", "stream=r_frame_rate", inputVideoPath]
  }

  /** The parsing half of `get_video_fps`: strip, then either `num/den` split
      at the first slash, or a plain number. `None` covers the zero
      denominator and every `ValueError`. */
  function ParseRate(stdout: string): Option<real> {
    var rate := PyText.Strip(stdout);
    var slash := PyText.Find(rate, '/');
    if slash >= 0 then
      var num := PyNum.ParseFloat(rate[..slash]);
      var den := PyNum.ParseFloat(rate[slash + 1..]);
      if num.None? || den.None? then None
      else if den.value == 0.0 then None
      else Some(num.value / den.value)
    else
      PyNum.ParseFloat(rate)
  }

  /** `get_video_fps`: `probeStdout` is what ffprobe printed, or `None` when
      the command failed; every failure gives `None`. */
  function GetVideoFps(probeStdout: Option<string>): (fps: Option<real>)
    ensures probeStdout.None? ==> fps.None?
    ensures probeStdout.Some? ==> fps == ParseRate(probeStdout.value)
  {
    match probeStdout
    case None => None
    case Some(out) => ParseRate(out)
  }

  /** A rate `n/d` as ffprobe prints it, with its trailing newline, reads as
      `n / d`, and as nothing when `d` is zero. */
  lemma ParseRateFraction(n: nat, d: nat)
    ensures var out := PyNum.NatToString(n) + "/" + PyNum.NatToString(d) + "\n";
      GetVideoFps(Some(out)) == if d == 0 then None else Some(n as real / d as real)
  {
    var sn := PyNum.NatToString(n);
    var sd := PyNum.NatToString(d);
    PyNum.ParseFloatNat(n);
    PyNum.ParseFloatNat(d);
    ParseFractionOf(sn, sd, n as real, d as real);
  }

  /** Two digit strings around a slash read as the quotient of their values. */
  lemma ParseFractionOf(sn: string, sd: string, x: real, y: real)
    requires |sn| > 0 && |sd| > 0 && PyNum.AllDigits(sn) && PyNum.AllDigits(sd)
    requires PyNum.ParseFloat(sn) == Some(x) && PyNum.ParseFloat(sd) == Some(y)
    ensures ParseRate(sn + "/" + sd + "\n") == if y == 0.0 then None else Some(x / y)
  {
    FractionStrips(sn, sd);
    ParseRateSplit(sn + "/" + sd + "\n", sn, sd);
  }

  /** The printed fraction strips to itself and has its first slash between
      the two numbers. */
  lemma FractionStrips(sn: string, sd: string)
    requires |sn| > 0 && |sd| > 0
    requires PyNum.AllDigits(sn) && PyNum.AllDigits(sd)
    ensures PyText.Strip(sn + "/" + sd + "\n") == sn + "/" + sd && '/' !in sn
  {
    var rate := sn + "/" + sd;
    SlashEnds(sn, sd);
    assert PyNum.IsDigit(sn[0]) && PyNum.IsDigit(sd[|sd| - 1]);
    StripNewline(rate);
    assert '/' !in sn by {
      assert forall k :: 0 <= k < |sn| ==> PyNum.IsDigit(sn[k]);
    }
  }

  lemma SlashEnds(a: string, b: string)
    requires |a| > 0 && |b| > 0
    ensures var s := a + "/" + b; s[0] == a[0] && s[|s| - 1] == b[|b| - 1]
  {
    var s := a + "/" + b;
    assert |s| == |a| + 1 + |b|;
    assert s[|a| + 1 + (|b| - 1)] == b[|b| - 1];
  }

  /** A stripped rate with a slash is read as its two halves around the first slash. */
  lemma ParseRateSplit(out: string, a: string, b: string)
    requires PyText.Strip(out) == a + "/" + b && '/' !in a
    ensures ParseRate(out) ==
      var num := PyNum.ParseFloat(a);
      var den := PyNum.ParseFloat(b);
      if num.None? || den.None? || den.value == 0.0 then None else Some(num.value / den.value)
  {
    SplitAtFirst(a, '/', b);
  }

  /** Splitting `a + [c] + b` at the first `c`, when `a` has none. */
  lemma SplitAtFirst(a: string, c: char, b: string)
    requires c !in a
    ensures var s := a + [c] + b; PyText.Find(s, c) == |a| && s[..|a|] == a && s[|a| + 1..] == b
  {
    var s := a + [c] + b;
    assert s[|a|] == c;
    assert forall k :: 0 <= k < |a| ==> s[k] == a[k];
    assert s[..|a|] == a;
    assert s[|a| + 1..] == b;
  }

  /** A plain integral rate reads as itself. */
  lemma ParseRateWhole(n: nat)
    ensures GetVideoFps(Some(PyNum.NatToString(n) + "\n")) == Some(n as real)
  {
    var s := PyNum.NatToString(n);
    StripNewline(s);
    assert PyText.Find(s, '/') < 0 by {
      assert forall k :: 0 <= k < |s| ==> PyNum.IsDigit(s[k]);
    }
    PyNum.ParseFloatNat(n);
  }

  /** Stripping a digit-delimited string followed by a newline. */
  lemma StripNewline(s: string)
    requires |s| > 0 && PyNum.IsDigit(s[0]) && PyNum.IsDigit(s[|s| - 1])
    ensures PyText.Strip(s + "\n") == s
  {
    var t := s + "\n";
    assert PyText.LeadingSpaces(t) == 0;
    assert t[|t| - 1] == '\n' && t[|t| - 2] == s[|s| - 1];
    assert PyText.IsSpace(t[|t| - 1]) && !PyText.IsSpace(t[|t| - 2]);
    assert PyText.TrailingSpaces(t) == 1;
    assert t[0..][..|t| - 1] == s;
  }

  // ---------------------------------------------------------------------------
  // Frames

  /** A name of the form `dddddddd.png`, the pattern ffmpeg writes frames to. */
  predicate IsFrameFile(name: string) {
    |name| == 12 && PyNum.AllDigits(name[..8]) && name[8..] == ".png"
  }

  /** `re.match(r"^\d{8}\.png$", name)`: `$` also matches just before a
      final newline, so such a name with one trailing newline matches too. */
  predicate IsFrameName(name: string) {
    IsFrameFile(name) || (|name| == 13 && IsFrameFile(name[..12]) && name[12] == '\n')
  }

  /** The frame number ffmpeg encoded in the name. */
  function FrameIndex(name: string): nat
    requires IsFrameName(name)
  {
    PyNum.DigitsValue(name[..8])
  }

  /** The directory entries that match the frame pattern, in listing order. */
  function FrameNames(listing: seq<string>): (names: seq<string>)
    ensures |names| <= |listing|
    ensures forall i :: 0 <= i < |names| ==> IsFrameName(names[i])
    ensures forall n :: n in names <==> n in listing && IsFrameName(n)
    decreases |listing|
  {
    if |listing| == 0 then []
    else
      var last := listing[|listing| - 1];
      FrameNames(listing[..|listing| - 1]) + (if IsFrameName(last) then [last] else [])
  }

  /** Filtering a listing in two parts gives the two filtered parts one
      after the other, so the matching names keep their listing order. */
  lemma {:induction false} FrameNamesAppend(a: seq<string>, b: seq<string>)
    ensures FrameNames(a + b) == FrameNames(a) + FrameNames(b)
    decreases |b|
  {
    if |b| > 0 {
      var init := b[..|b| - 1];
      var last := b[|b| - 1];
      assert (a + b)[..|a + b| - 1] == a + init;
      assert (a + b)[|a + b| - 1] == last;
      FrameNamesAppend(a, init);
    } else {
      assert a + b == a;
    }
  }

  /** Every matching name is kept as often as it is listed, and no other
      name is kept. */
  lemma {:induction false} FrameNamesCount(listing: seq<string>, n: string)
    ensures multiset(FrameNames(listing))[n] == if IsFrameName(n) then multiset(listing)[n] else 0
    decreases |listing|
  {
    if |listing| > 0 {
      var init := listing[..|listing| - 1];
      var last := listing[|listing| - 1];
      assert listing == init + [last];
      FrameNamesCount(init, n);
    }
  }

  /** A single entry is kept exactly when it matches the frame pattern. */
  lemma FrameNamesSingle(name: string)
    ensures FrameNames([name]) == if IsFrameName(name) then [name] else []
  {
    assert [name][..0] == [];
  }

  /** `os.path.join(frames_dir, "raw")`. */
  function RawDir(framesDir: string): string {
    PyPath.Join(framesDir, "raw")
  }

  /** The ffmpeg invocation of `extract_frames`, writing numbered PNGs into `raw/`. */
  function ExtractCommand(inputVideoPath: string, framesDir: string): (cmd: seq<string>)
    ensures |cmd| == 7 && cmd[0] == "ffmpeg" && cmd[3] == inputVideoPath
    ensures PyPath.Basename(cmd[6]) == "%08d.png"
  {
    PyPath.BasenameJoin(RawDir(framesDir), "%08d.png");
    ["ffmpeg", "-y", "-i", inputVideoPath, "-vsync", "0", PyPath.Join(RawDir(framesDir), "%08d.png")]
  }

  /** `extract_frames`: the command's failure propagates (its message is
      `commandError`); otherwise the entries of `raw/` that match the frame
      pattern are counted. */
  method ExtractFrames(commandError: Option<string>, rawListing: seq<string>) returns (r: Result<nat, string>)
    ensures commandError.Some? ==> r == Failure(commandError.value)
    ensures commandError.None? ==> r == Success(|FrameNames(rawListing)|)
  {
    if commandError.Some? {
      return Failure(commandError.value);
    }
    var count := 0;
    for i := 0 to |rawListing|
      invariant count == |FrameNames(rawListing[..i])|
    {
      assert rawListing[..i + 1][..i] == rawListing[..i];
      if IsFrameName(rawListing[i]) {
        count := count + 1;
      }
    }
    assert rawListing[..|rawListing|] == rawListing;
    return Success(count);
  }

  /** The matching names joined under `raw_dir`, in listing order (the list
      comprehension of `list_frame_files`). */
  function FramePaths(rawDir: string, listing: seq<string>): (paths: seq<string>)
    ensures var names := FrameNames(listing);
      |paths| == |names| && forall i :: 0 <= i < |paths| ==> paths[i] == PyPath.Join(rawDir, names[i])
  {
    var names := FrameNames(listing);
    seq(|names|, i requires 0 <= i < |names| => PyPath.Join(rawDir, names[i]))
  }

  /** `list_frame_files`: the matching entries of `raw/`, joined and sorted in place. */
  method ListFrameFiles(framesDir: string, rawListing: seq<string>) returns (files: seq<string>)
    ensures LexOrder.Sorted(files)
    ensures multiset(files) == multiset(FramePaths(RawDir(framesDir), rawListing))
    ensures |files| == |FrameNames(rawListing)|
    ensures files == LexOrder.SortSeq(FramePaths(RawDir(framesDir), rawListing))
  {
    var paths := FramePaths(RawDir(framesDir), rawListing);
    var a := new string[|paths|](i requires 0 <= i < |paths| => paths[i]);
    assert a[..] == paths;
    LexOrder.SortInPlace(a);
    files := a[..];
    assert |multiset(files)| == |files|;
    assert |multiset(paths)| == |paths|;
    LexOrder.SortedIsSortSeq(paths, files);
  }

  /** A smaller leading digit makes a smaller number. */
  lemma LeadingDigitDecides(da: nat, db: nat, p: nat, ra: nat, rb: nat)
    requires da < db && ra < p && rb < p
    ensures da * p + ra < db * p + rb
  {
    MulMonotone(da + 1, db, p);
    assert (da + 1) * p == da * p + p;
  }

  lemma {:induction false} MulMonotone(x: nat, y: nat, p: nat)
    requires x <= y
    ensures x * p <= y * p
    decreases y - x
  {
    if x < y {
      MulMonotone(x + 1, y, p);
      assert (x + 1) * p == x * p + p;
    }
  }

  /** For digit strings of one length, string order is numeric order. */
  lemma {:induction false} DigitsLexOrder(a: string, b: string)
    requires PyNum.AllDigits(a) && PyNum.AllDigits(b) && |a| == |b|
    ensures LexOrder.LexLe(a, b) <==> PyNum.DigitsValue(a) <= PyNum.DigitsValue(b)
    decreases |a|
  {
    if |a| > 0 {
      var p := PyNum.Pow10(|a| - 1);
      PyNum.DigitsValueFront(a);
      PyNum.DigitsValueFront(b);
      var ra, rb := PyNum.DigitsValue(a[1..]), PyNum.DigitsValue(b[1..]);
      PyNum.DigitsValueBound(a[1..]);
      PyNum.DigitsValueBound(b[1..]);
      var da, db := PyNum.DigitValue(a[0]), PyNum.DigitValue(b[0]);
      if a[0] == b[0] {
        DigitsLexOrder(a[1..], b[1..]);
      } else if a[0] < b[0] {
        LeadingDigitDecides(da, db, p, ra, rb);
      } else {
        LeadingDigitDecides(db, da, p, rb, ra);
      }
    }
  }

  /** Frame files sort in frame order: the names have a fixed width. */
  lemma FrameOrder(a: string, b: string)
    requires IsFrameFile(a) && IsFrameFile(b)
    ensures LexOrder.LexLe(a, b) <==> FrameIndex(a) <= FrameIndex(b)
  {
    assert a == a[..8] + ".png" && b == b[..8] + ".png";
    if a[..8] == b[..8] {
      LexOrder.LexLeRefl(a);
    } else {
      LexOrder.LexLeSuffix(a[..8], b[..8], ".png", ".png");
    }
    DigitsLexOrder(a[..8], b[..8]);
  }

  /** Joining both under the same directory keeps that order. */
  lemma FramePathOrder(rawDir: string, a: string, b: string)
    requires IsFrameFile(a) && IsFrameFile(b)
    ensures LexOrder.LexLe(PyPath.Join(rawDir, a), PyPath.Join(rawDir, b)) <==> FrameIndex(a) <= FrameIndex(b)
  {
    assert a[0] != '/' && b[0] != '/' by {
      assert PyNum.IsDigit(a[..8][0]) && PyNum.IsDigit(b[..8][0]);
    }
    var pre := if rawDir == "" || rawDir[|rawDir| - 1] == '/' then rawDir else rawDir + "/";
    assert PyPath.Join(rawDir, a) == pre + a && PyPath.Join(rawDir, b) == pre + b;
    LexOrder.LexLePrefix(pre, a, b);
    FrameOrder(a, b);
  }

  lemma FrameFileNoSlash(name: string)
    requires IsFrameFile(name)
    ensures name != "" && '/' !in name
  {
    assert forall k :: 0 <= k < 8 ==> PyNum.IsDigit(name[..8][k]);
    assert forall k :: 8 <= k < 12 ==> name[k] == ".png"[k - 8];
  }

  /** A name the frame pattern accepts, with or without its trailing
      newline, holds no `/`. */
  lemma FrameNameNoSlash(name: string)
    requires IsFrameName(name)
    ensures name != "" && '/' !in name
  {
    if IsFrameFile(name) {
      FrameFileNoSlash(name);
    } else {
      FrameFileNoSlash(name[..12]);
      assert name == name[..12] + [name[12]];
    }
  }

  /** Every name the pattern accepts, including one with a trailing newline:
      string order never puts a higher frame number first, and a lower frame
      number always sorts first. Names with the same number may sort
      either way. */
  lemma FrameNameOrder(a: string, b: string)
    requires IsFrameName(a) && IsFrameName(b)
    ensures LexOrder.LexLe(a, b) ==> FrameIndex(a) <= FrameIndex(b)
    ensures FrameIndex(a) < FrameIndex(b) ==> LexOrder.LexLe(a, b)
  {
    var da, db := a[..8], b[..8];
    assert PyNum.AllDigits(da) && PyNum.AllDigits(db) by {
      if !IsFrameFile(a) { assert da == a[..12][..8]; }
      if !IsFrameFile(b) { assert db == b[..12][..8]; }
    }
    if da != db {
      assert a == da + a[8..] && b == db + b[8..];
      LexOrder.LexLeSuffix(da, db, a[8..], b[8..]);
      DigitsLexOrder(da, db);
    }
  }

  /** The same order for names joined under one directory. */
  lemma FrameNamePathOrder(rawDir: string, a: string, b: string)
    requires IsFrameName(a) && IsFrameName(b)
    ensures LexOrder.LexLe(PyPath.Join(rawDir, a), PyPath.Join(rawDir, b)) ==> FrameIndex(a) <= FrameIndex(b)
    ensures FrameIndex(a) < FrameIndex(b) ==> LexOrder.LexLe(PyPath.Join(rawDir, a), PyPath.Join(rawDir, b))
  {
    FrameNameNoSlash(a);
    FrameNameNoSlash(b);
    assert a[0] != '/' && b[0] != '/' by {
      assert a[0] in a && b[0] in b;
    }
    var pre := PyPath.DirPrefix(rawDir);
    PyPath.JoinShape(rawDir, a);
    PyPath.JoinShape(rawDir, b);
    LexOrder.LexLePrefix(pre, a, b);
    FrameNameOrder(a, b);
  }

  /** A listed path is an accepted name joined under `raw/`. */
  lemma ListedPath(rawDir: string, rawListing: seq<string>, f: string)
    requires f in FramePaths(rawDir, rawListing)
    ensures IsFrameName(PyPath.Basename(f)) && f == PyPath.Join(rawDir, PyPath.Basename(f))
  {
    var paths := FramePaths(rawDir, rawListing);
    var names := FrameNames(rawListing);
    var k :| 0 <= k < |paths| && paths[k] == f;
    assert names[k] in names;
    FrameNameNoSlash(names[k]);
    PyPath.BasenameJoin(rawDir, names[k]);
  }

  /** The sorted listing holds accepted names under `raw/` by non-decreasing
      frame number, which is the order in which the video is rebuilt. */
  lemma SortedFramesInFrameOrder(framesDir: string, rawListing: seq<string>, files: seq<string>)
    requires LexOrder.Sorted(files)
    requires multiset(files) == multiset(FramePaths(RawDir(framesDir), rawListing))
    ensures forall i :: 0 <= i < |files| ==>
      IsFrameName(PyPath.Basename(files[i])) && files[i] == PyPath.Join(RawDir(framesDir), PyPath.Basename(files[i]))
    ensures forall i, j :: 0 <= i < j < |files| ==>
      FrameIndex(PyPath.Basename(files[i])) <= FrameIndex(PyPath.Basename(files[j]))
  {
    var raw := RawDir(framesDir);
    forall i | 0 <= i < |files|
      ensures IsFrameName(PyPath.Basename(files[i])) && files[i] == PyPath.Join(raw, PyPath.Basename(files[i]))
    {
      assert files[i] in multiset(files);
      ListedPath(raw, rawListing, files[i]);
    }
    forall i, j | 0 <= i < j < |files|
      ensures FrameIndex(PyPath.Basename(files[i])) <= FrameIndex(PyPath.Basename(files[j]))
    {
      var a, b := PyPath.Basename(files[i]), PyPath.Basename(files[j]);
      assert LexOrder.LexLe(files[i], files[j]);
      FrameNamePathOrder(raw, a, b);
    }
  }

  // ---------------------------------------------------------------------------
  // Audio

  /** The ffmpeg invocation of `extract_audio`: drop the video, encode AAC. */
  function AudioCommand(inputVideoPath: string, audioOutputPath: string): (cmd: seq<string>)
    ensures |cmd| == 8 && cmd[0] == "ffmpeg" && cmd[2] == "-i" && cmd[3] == inputVideoPath
    ensures "-vn" in cmd && cmd[|cmd| - 1] == audioOutputPath
  {
    ["ffmpeg", "-y", "-i", inputVideoPath, "-vn", "-acodec", "aac", audioOutputPath]
  }

  /** `extract_audio`: true exactly when the command succeeded; a failure is
      reported, never raised. */
  function ExtractAudio(commandError: Option<string>): (ok: bool)
    ensures ok <==> commandError.None?
  {
    match commandError
    case None => true
    case Some(_) => false
  }

  // ---------------------------------------------------------------------------
  // Reassembly

  /** The arguments of `assemble_video`. */
  datatype AssembleRequest = AssembleRequest(
    framesDir: string,
    fps: real,
    outputPath: string,
    audioPath: Option<string>,
    videoBitrate: Option<string>,
    interpolateToFps: Option<real>)

  /** `interpolate_to_fps and interpolate_to_fps > fps`. */
  predicate Interpolates(a: AssembleRequest) {
    TruthyReal(a.interpolateToFps) && a.interpolateToFps.value > a.fps
  }

  /** `audio_path and os.path.exists(audio_path)`. */
  predicate MuxesAudio(a: AssembleRequest, pathExists: string -> bool) {
    TruthyStr(a.audioPath) && pathExists(a.audioPath.value)
  }

  const EncodeFlags: seq<string> := ["-pix_fmt", "yuv420p", "-c:v", "libx264", "-preset", "slow", "-crf", "18"]
  const AudioFlags: seq<string> := ["-c:a", "aac", "-b:a", "192k"]

  /** The command `assemble_video` hands to ffmpeg, as one expression.
      `show` is Python's `str` on floats; `pathExists` is `os.path.exists`. */
  function AssembleCommand(a: AssembleRequest, pathExists: string -> bool, show: real -> string): seq<string> {
    AssembleHead(a, show) + FilterArgs(a, show) + EncodeFlags + BitrateArgs(a) + AudioArgs(a, pathExists) + [a.outputPath]
  }

  /** The frame rate and the input pattern. */
  function AssembleHead(a: AssembleRequest, show: real -> string): seq<string> {
    ["ffmpeg", "-y", "-framerate", show(a.fps), "-i", PyPath.Join(a.framesDir, "%08d.png")]
  }

  /** The motion-interpolation filter, when the target rate is set and higher. */
  function FilterArgs(a: AssembleRequest, show: real -> string): seq<string> {
    if Interpolates(a) then ["-vf", "minterpolate=fps=" + show(a.interpolateToFps.value)] else []
  }

  /** The video bitrate, when non-empty. */
  function BitrateArgs(a: AssembleRequest): seq<string> {
    if TruthyStr(a.videoBitrate) then ["-b:v", a.videoBitrate.value] else []
  }

  /** The audio input and its encoder flags, when given and present. */
  function AudioArgs(a: AssembleRequest, pathExists: string -> bool): seq<string> {
    if MuxesAudio(a, pathExists) then ["-i", a.audioPath.value] + AudioFlags else []
  }

  /** `assemble_video`: builds the command step by step and runs it; the
      command's failure (`commandError`) propagates. */
  method AssembleVideo(a: AssembleRequest, pathExists: string -> bool, show: real -> string, commandError: Option<string>)
    returns (cmd: seq<string>, r: Result<(), string>)
    ensures cmd == AssembleCommand(a, pathExists, show)
    ensures r == if commandError.Some? then Failure(commandError.value) else Success(())
  {
    var pattern := PyPath.Join(a.framesDir, "%08d.png");
    cmd := ["ffmpeg", "-y", "-framerate", show(a.fps), "-i", pattern];
    if TruthyReal(a.interpolateToFps) && a.interpolateToFps.value > a.fps {
      cmd := cmd + ["-vf", "minterpolate=fps=" + show(a.interpolateToFps.value)];
    }
    assert cmd == AssembleHead(a, show) + FilterArgs(a, show);
    cmd := cmd + EncodeFlags;
    if TruthyStr(a.videoBitrate) {
      cmd := cmd + ["-b:v", a.videoBitrate.value];
    }
    assert cmd == AssembleHead(a, show) + FilterArgs(a, show) + EncodeFlags + BitrateArgs(a);
    if TruthyStr(a.audioPath) && pathExists(a.audioPath.value) {
      cmd := cmd + (["-i", a.audioPath.value] + AudioFlags);
    }
    assert cmd == AssembleHead(a, show) + FilterArgs(a, show) + EncodeFlags + BitrateArgs(a) + AudioArgs(a, pathExists);
    cmd := cmd + [a.outputPath];
    r := if commandError.Some? then Failure(commandError.value) else Success(());
  }

  /** What can be read back from an assembly command. */
  datatype AssembleShape = AssembleShape(
    rate: string,
    pattern: string,
    filter: Option<string>,
    bitrate: Option<string>,
    audio: Option<string>,
    output: string)

  /** Reads an assembly command back into its parts. */
  function ParseAssemble(cmd: seq<string>): Option<AssembleShape> {
    if |cmd| < 6 || cmd[..3] != ["ffmpeg", "-y", "-framerate"] || cmd[4] != "-i" then None
    else
      var rest := cmd[6..];
      var filter := if |rest| >= 2 && rest[0] == "-vf" then Some(rest[1]) else None;
      var afterFilter := if filter.Some? then rest[2..] else rest;
      if |afterFilter| < 9 || afterFilter[..8] != EncodeFlags then None
      else
        match ParseTail(afterFilter[8..])
        case None => None
        case Some(t) => Some(AssembleShape(cmd[3], cmd[5], filter, t.0, t.1, t.2))
  }

  /** The arguments after the encoder flags, told apart by how many there
      are: an optional bitrate, an optional audio input, then the output. */
  function ParseTail(tail: seq<string>): Option<(Option<string>, Option<string>, string)> {
    var n := |tail|;
    if n == 1 then Some((None, None, tail[0]))
    else if n == 3 && tail[0] == "-b:v" then Some((Some(tail[1]), None, tail[2]))
    else if n == 7 && tail[0] == "-i" && tail[2..6] == AudioFlags then Some((None, Some(tail[1]), tail[6]))
    else if n == 9 && tail[0] == "-b:v" && tail[2] == "-i" && tail[4..8] == AudioFlags then
      Some((Some(tail[1]), Some(tail[3]), tail[8]))
    else None
  }

  /** The optional bitrate and audio arguments and the output read back. */
  lemma TailRoundTrip(bitrate: Option<string>, audio: Option<string>, output: string)
    ensures var b: seq<string> := if bitrate.Some? then ["-b:v", bitrate.value] else [];
      var au: seq<string> := if audio.Some? then ["-i", audio.value] + AudioFlags else [];
      ParseTail(b + au + [output]) == Some((bitrate, audio, output))
  {
    var b: seq<string> := if bitrate.Some? then ["-b:v", bitrate.value] else [];
    var au: seq<string> := if audio.Some? then ["-i", audio.value] + AudioFlags else [];
    var tail := b + au + [output];
    if audio.Some? {
      assert tail[|b|..|b| + 2] == ["-i", audio.value];
      assert tail[|b| + 2..|b| + 6] == AudioFlags;
    }
  }

  /** What the request asks of ffmpeg. */
  function IntendedShape(a: AssembleRequest, pathExists: string -> bool, show: real -> string): AssembleShape {
    AssembleShape(
      show(a.fps),
      PyPath.Join(a.framesDir, "%08d.png"),
      if Interpolates(a) then Some("minterpolate=fps=" + show(a.interpolateToFps.value)) else None,
      if TruthyStr(a.videoBitrate) then Some(a.videoBitrate.value) else None,
      if MuxesAudio(a, pathExists) then Some(a.audioPath.value) else None,
      a.outputPath)
  }

  /** The assembly command carries exactly the request: the frame rate and
      pattern after `-framerate`/`-i`, the interpolation filter only when the
      target rate is set and higher, the bitrate only when non-empty, the
      audio input only when given and present, and the output last. */
  lemma AssembleRoundTrip(a: AssembleRequest, pathExists: string -> bool, show: real -> string)
    ensures ParseAssemble(AssembleCommand(a, pathExists, show)) == Some(IntendedShape(a, pathExists, show))
  {
    var shape := IntendedShape(a, pathExists, show);
    var tail := BitrateArgs(a) + AudioArgs(a, pathExists) + [a.outputPath];
    assert AssembleCommand(a, pathExists, show) == AssembleHead(a, show) + (FilterArgs(a, show) + (EncodeFlags + tail));
    ParseComposed(shape.rate, shape.pattern, shape.filter, tail);
    TailRoundTrip(shape.bitrate, shape.audio, a.outputPath);
  }

  /** The header and the optional filter read back, whatever the tail. */
  lemma ParseComposed(rate: string, pattern: string, filter: Option<string>, tail: seq<string>)
    ensures var f: seq<string> := if filter.Some? then ["-vf", filter.value] else [];
      ParseAssemble(["ffmpeg", "-y", "-framerate", rate, "-i", pattern] + (f + (EncodeFlags + tail)))
        == match ParseTail(tail)
           case None => None
           case Some(t) => Some(AssembleShape(rate, pattern, filter, t.0, t.1, t.2))
  {
    var f: seq<string> := if filter.Some? then ["-vf", filter.value] else [];
    var cmd := ["ffmpeg", "-y", "-framerate", rate, "-i", pattern] + (f + (EncodeFlags + tail));
    assert cmd[..3] == ["ffmpeg", "-y", "-framerate"];
    assert cmd[3] == rate && cmd[4] == "-i" && cmd[5] == pattern;
    var rest := cmd[6..];
    assert rest == f + (EncodeFlags + tail);
    var afterFilter := EncodeFlags + tail;
    if filter.Some? {
      assert rest[0] == "-vf" && rest[1] == filter.value;
      assert rest[2..] == afterFilter;
    } else {
      assert rest == afterFilter;
    }
    assert afterFilter[..8] == EncodeFlags;
    assert afterFilter[8..] == tail;
  }

  /** The assembly command starts with the input rate and pattern and ends
      with the output path. */
  lemma AssembleFrame(a: AssembleRequest, pathExists: string -> bool, show: real -> string)
    ensures var cmd := AssembleCommand(a, pathExists, show);
      |cmd| >= 15 && cmd[..6] == ["ffmpeg", "-y", "-framerate", show(a.fps), "-i", PyPath.Join(a.framesDir, "%08d.png")]
      && cmd[|cmd| - 1] == a.outputPath
  {
  }
}
