/** The processing pipeline (backend/app/services/pipeline.py): reading the
    job's options, naming the output, and running the stages of an image or
    a video job while reporting progress to the job store.

    Each stage is specified twice: by a function giving the outcome and the
    trace of work done (`Run`), and by a method that does the work step by
    step, calls `set_progress`, and is proved to produce that same run. The
    collaborators (upscaler, enhancer, ffmpeg) and the file system are
    inputs gathered in `Env`. */
module Pipeline {
  import opened Wrappers
  import PyText
  import PyNum
  import PyPath
  import LexOrder
  import Files
  import Ffmpeg
  import ImageUpscaler
  import Enhancers
  import Jobs
  import opened UpscaleBinding

  // ---------------------------------------------------------------------------
  // Options

  /** `ProcessOptions`; every field is optional. */
  datatype ProcessOptions = ProcessOptions(
    scale: Option<real>,
    targetWidth: Option<int>,
    targetHeight: Option<int>,
    videoBitrate: Option<string>,
    format: Option<string>,
    mode: Option<string>,
    strength: Option<real>,
    interpolate: Option<bool>,
    interpFactor: Option<int>,
    realesrganModel: Option<string>,
    rifeFactor: Option<int>)

  /** `data.get(key)` read as a float: an int counts as the same number. */
  function GetReal(data: Jobs.Options, key: string): Option<real> {
    if key !in data then None
    else match data[key]
      case Real(r) => Some(r)
      case Int(i) => Some(i as real)
      case _ => None
  }

  function GetInt(data: Jobs.Options, key: string): Option<int> {
    if key in data && data[key].Int? then Some(data[key].i) else None
  }

  function GetStr(data: Jobs.Options, key: string): Option<string> {
    if key in data && data[key].Str? then Some(data[key].s) else None
  }

  function GetBool(data: Jobs.Options, key: string): Option<bool> {
    if key in data && data[key].Bool? then Some(data[key].b) else None
  }

  /** `ProcessOptions.from_dict`: each field from its key, absent when the
      key is missing. */
  function FromDict(data: Jobs.Options): ProcessOptions {
    ProcessOptions(
      GetReal(data, "scale"),
      GetInt(data, "target_width"),
      GetInt(data, "target_height"),
      GetStr(data, "video_bitrate"),
      GetStr(data, "format"),
      GetStr(data, "mode"),
      GetReal(data, "strength"),
      GetBool(data, "interpolate"),
      GetInt(data, "interp_factor"),
      GetStr(data, "realesrgan_model"),
      GetInt(data, "rife_factor"))
  }

  const OptionKeys: set<string> := {"scale", "target_width", "target_height", "video_bitrate", "format", "mode",
                                    "strength", "interpolate", "interp_factor", "realesrgan_model", "rife_factor"}

  function RealValue(x: Option<real>): Option<Jobs.Value> {
    if x.Some? then Some(Jobs.Real(x.value)) else None
  }

  function IntValue(x: Option<int>): Option<Jobs.Value> {
    if x.Some? then Some(Jobs.Int(x.value)) else None
  }

  function StrValue(x: Option<string>): Option<Jobs.Value> {
    if x.Some? then Some(Jobs.Str(x.value)) else None
  }

  function BoolValue(x: Option<bool>): Option<Jobs.Value> {
    if x.Some? then Some(Jobs.Bool(x.value)) else None
  }

  /** The dictionary value of the field named by `key`, if that field is set. */
  function FieldValue(o: ProcessOptions, key: string): Option<Jobs.Value> {
    if key == "scale" then RealValue(o.scale)
    else if key == "target_width" then IntValue(o.targetWidth)
    else if key == "target_height" then IntValue(o.targetHeight)
    else if key == "video_bitrate" then StrValue(o.videoBitrate)
    else if key == "format" then StrValue(o.format)
    else if key == "mode" then StrValue(o.mode)
    else if key == "strength" then RealValue(o.strength)
    else if key == "interpolate" then BoolValue(o.interpolate)
    else if key == "interp_factor" then IntValue(o.interpFactor)
    else if key == "realesrgan_model" then StrValue(o.realesrganModel)
    else if key == "rife_factor" then IntValue(o.rifeFactor)
    else None
  }

  /** The dictionary holding exactly the fields that are set. */
  function ToDict(o: ProcessOptions): (d: Jobs.Options)
    ensures forall k :: k in d <==> k in OptionKeys && FieldValue(o, k).Some?
    ensures forall k :: k in d ==> d[k] == FieldValue(o, k).value
  {
    map k | k in OptionKeys && FieldValue(o, k).Some? :: FieldValue(o, k).value
  }

  /** Reading back the dictionary of a set of options gives those options. */
  lemma FromDictToDict(o: ProcessOptions)
    ensures FromDict(ToDict(o)) == o
  {
    var d := ToDict(o);
    ReadReal(o, "scale", o.scale);
    ReadInt(o, "target_width", o.targetWidth);
    ReadInt(o, "target_height", o.targetHeight);
    ReadStr(o, "video_bitrate", o.videoBitrate);
    ReadStr(o, "format", o.format);
    ReadStr(o, "mode", o.mode);
    ReadReal(o, "strength", o.strength);
    ReadBool(o, "interpolate", o.interpolate);
    ReadInt(o, "interp_factor", o.interpFactor);
    ReadStr(o, "realesrgan_model", o.realesrganModel);
    ReadInt(o, "rife_factor", o.rifeFactor);
  }

  lemma ReadReal(o: ProcessOptions, key: string, x: Option<real>)
    requires key in OptionKeys && FieldValue(o, key) == RealValue(x)
    ensures GetReal(ToDict(o), key) == x
  {
  }

  lemma ReadInt(o: ProcessOptions, key: string, x: Option<int>)
    requires key in OptionKeys && FieldValue(o, key) == IntValue(x)
    ensures GetInt(ToDict(o), key) == x
  {
  }

  lemma ReadStr(o: ProcessOptions, key: string, x: Option<string>)
    requires key in OptionKeys && FieldValue(o, key) == StrValue(x)
    ensures GetStr(ToDict(o), key) == x
  {
  }

  lemma ReadBool(o: ProcessOptions, key: string, x: Option<bool>)
    requires key in OptionKeys && FieldValue(o, key) == BoolValue(x)
    ensures GetBool(ToDict(o), key) == x
  {
  }

  /** An empty dictionary gives no options at all. */
  lemma FromDictEmpty()
    ensures FromDict(map[]) == ProcessOptions(None, None, None, None, None, None, None, None, None, None, None)
  {
  }

  // ---------------------------------------------------------------------------
  // Output naming

  const ImageFormats: set<string> := {"png", "jpg", "jpeg", "webp"}
  const VideoFormats: set<string> := {"mp4", "mov", "mkv", "webm"}

  /** `(format or default).lower()`, replaced by `default` unless allowed. */
  function OutputFormat(format: Option<string>, default: string, allowed: set<string>): (f: string)
    requires default in allowed
    ensures f in allowed
    ensures TruthyStr(format) && PyText.Lower(format.value) in allowed ==> f == PyText.Lower(format.value)
    ensures !(TruthyStr(format) && PyText.Lower(format.value) in allowed) && PyText.Lower(default) == default ==> f == default
  {
    var f := PyText.Lower(StrOr(format, default));
    if f in allowed then f else default
  }

  /** Choosing the format again from the chosen one keeps it. */
  lemma OutputFormatIdempotent(format: Option<string>, default: string, allowed: set<string>)
    requires default in allowed && PyText.Lower(default) == default
    ensures var f := OutputFormat(format, default, allowed);
      OutputFormat(Some(f), default, allowed) == f
  {
    var f := OutputFormat(format, default, allowed);
    if TruthyStr(format) && PyText.Lower(format.value) in allowed {
      PyText.LowerIdempotent(format.value);
    }
  }

  /** The requested format is read without regard to letter case. */
  lemma OutputFormatIgnoresCase(format: string, default: string, allowed: set<string>)
    requires default in allowed && PyText.Lower(default) == default
    ensures OutputFormat(Some(PyText.Lower(format)), default, allowed) == OutputFormat(Some(format), default, allowed)
  {
    PyText.LowerIdempotent(format);
    if format != "" {
      assert PyText.Lower(format)[0] == PyText.LowerChar(format[0]);
    }
  }

  /** The output name's suffix: the mode with spaces replaced by '_', or
      `default` for an empty or missing mode. */
  function Suffix(mode: Option<string>, default: string): (s: string)
    ensures ' ' !in default ==> ' ' !in s
    ensures TruthyStr(mode) ==> |s| == |mode.value| && s != ""
    ensures TruthyStr(mode) ==> forall i :: 0 <= i < |s| ==> s[i] == if mode.value[i] == ' ' then '_' else mode.value[i]
    ensures !TruthyStr(mode) ==> s == default
  {
    if TruthyStr(mode) then PyText.ReplaceChar(mode.value, ' ', '_') else default
  }

  /** `os.path.splitext(os.path.basename(input_path))[0]`. */
  function BaseName(inputPath: string): (b: string)
    ensures '/' !in b
    ensures b <= PyPath.Basename(inputPath)
    ensures b == PyPath.Splitext(PyPath.Basename(inputPath)).0
  {
    var name := PyPath.Basename(inputPath);
    PyPath.BasenameIsLastComponent(inputPath);
    var parts := PyPath.Splitext(name);
    assert parts.0 <= name by {
      assert parts.0 + parts.1 == name;
    }
    parts.0
  }

  /** The base name of `dir/stem.ext` is `stem`, for a stem that is a file
      name not made of dots only and an extension without a dot. */
  lemma BaseNameOfJoin(dir: string, stem: string, ext: string)
    requires '/' !in stem && !PyPath.AllDots(stem) && '/' !in ext && '.' !in ext
    ensures BaseName(PyPath.Join(dir, stem + "." + ext)) == stem
  {
    var name := stem + "." + ext;
    assert '/' !in name by {
      assert forall i :: 0 <= i < |name| ==> name[i] == if i < |stem| then stem[i] else if i == |stem| then '.' else ext[i - |stem| - 1];
    }
    PyPath.BasenameJoin(dir, name);
    PyPath.SplitextJoin("", stem, ext);
    assert PyPath.Join("", name) == name;
    assert PyPath.Join("", stem) == stem by {
      assert stem != "" && stem[0] != '/';
    }
  }

  /** `f"{base_name}_{suffix}.{output_format}"`. */
  function OutputName(base: string, suffix: string, fmt: string): string {
    base + "_" + suffix + "." + fmt
  }

  /** The stem of an output name has no `/` and is not all dots. */
  lemma OutputStem(base: string, suffix: string)
    requires '/' !in base && '/' !in suffix
    ensures var stem := base + "_" + suffix;
      '/' !in stem && !PyPath.AllDots(stem)
  {
    assert (base + "_" + suffix)[|base|] == '_';
  }

  lemma LowerVideoExtension(fmt: string)
    requires fmt in VideoFormats
    ensures '/' !in fmt && '.' !in fmt && PyText.Lower("." + fmt) == "." + fmt
    ensures "." + fmt in Files.VideoExtensions
  {
    if fmt == "mp4" {
      assert "." + fmt == ".mp4" && PyText.Lower(".mp4") == ".mp4";
    } else if fmt == "mov" {
      assert "." + fmt == ".mov" && PyText.Lower(".mov") == ".mov";
    } else if fmt == "mkv" {
      assert "." + fmt == ".mkv" && PyText.Lower(".mkv") == ".mkv";
    } else {
      assert "." + fmt == ".webm" && PyText.Lower(".webm") == ".webm";
    }
  }

  lemma ImageExtensionListed(fmt: string)
    requires fmt in ImageFormats
    ensures "." + fmt in Files.ImageExtensions
  {
    if fmt == "png" {
      assert "." + fmt == ".png";
    } else if fmt == "jpg" {
      assert "." + fmt == ".jpg";
    } else if fmt == "jpeg" {
      assert "." + fmt == ".jpeg";
    } else {
      assert "." + fmt == ".webp";
    }
  }

  /** An image job's output file is an image to the upload checks, its
      extension is the chosen format, it is saved in that format, and it
      downloads under its own name. */
  lemma ImageOutputClassified(dir: string, inputPath: string, opts: ProcessOptions)
    requires '/' !in Suffix(opts.mode, "upscaled")
    ensures var fmt := OutputFormat(opts.format, "png", ImageFormats);
      var name := OutputName(BaseName(inputPath), Suffix(opts.mode, "upscaled"), fmt);
      var out := PyPath.Join(dir, name);
      && Files.GetFileExtension(out) == "." + fmt
      && Files.DetectMediaType(out) == Success("image")
      && ImageUpscaler.SaveFormatFor(out) == ImageUpscaler.FormatOfExtension("." + fmt)
      && PyPath.Basename(out) == name
  {
    var fmt := OutputFormat(opts.format, "png", ImageFormats);
    var base := BaseName(inputPath);
    var suffix := Suffix(opts.mode, "upscaled");
    OutputStem(base, suffix);
    var stem := base + "_" + suffix;
    ImageUpscaler.LowerImageExtension(fmt);
    ImageExtensionListed(fmt);
    PyPath.SplitextJoin(dir, stem, fmt);
    ImageUpscaler.SaveFormatOfSuffix(dir, stem, fmt);
    assert OutputName(base, suffix, fmt) == stem + "." + fmt;
    PyPath.BasenameJoin(dir, stem + "." + fmt);
  }

  /** A video job's output file is a video to the upload checks, its
      extension is the chosen format, and it downloads under its own name. */
  lemma VideoOutputClassified(dir: string, inputPath: string, opts: ProcessOptions)
    requires '/' !in Suffix(opts.mode, "enhanced")
    ensures var fmt := OutputFormat(opts.format, "mp4", VideoFormats);
      var name := OutputName(BaseName(inputPath), Suffix(opts.mode, "enhanced"), fmt);
      var out := PyPath.Join(dir, name);
      && Files.GetFileExtension(out) == "." + fmt
      && Files.DetectMediaType(out) == Success("video")
      && PyPath.Basename(out) == name
  {
    var fmt := OutputFormat(opts.format, "mp4", VideoFormats);
    var base := BaseName(inputPath);
    var suffix := Suffix(opts.mode, "enhanced");
    OutputStem(base, suffix);
    var stem := base + "_" + suffix;
    LowerVideoExtension(fmt);
    PyPath.SplitextJoin(dir, stem, fmt);
    Files.ExtensionSetsDisjoint();
    assert OutputName(base, suffix, fmt) == stem + "." + fmt;
    PyPath.BasenameJoin(dir, stem + "." + fmt);
  }

  // ---------------------------------------------------------------------------
  // Decisions

  /** `options.scale or options.target_width or options.target_height`. */
  predicate Upscaling(opts: ProcessOptions) {
    TruthyReal(opts.scale) || TruthyInt(opts.targetWidth) || TruthyInt(opts.targetHeight)
  }

  /** `options.mode or "general"`. */
  function EnhanceMode(opts: ProcessOptions): string {
    StrOr(opts.mode, "general")
  }

  /** `float(options.strength) if options.strength is not None else 0.6`. */
  function EnhanceStrength(opts: ProcessOptions): real {
    opts.strength.GetOr(0.6)
  }

  /** The pipeline's default mode picks the enhancer the enhancers' own
      default would pick, so passing "general" for a missing mode changes
      nothing. */
  lemma EnhanceModeAgrees(opts: ProcessOptions)
    ensures Enhancers.SelectEnhancer(Some(EnhanceMode(opts))) == Enhancers.SelectEnhancer(opts.mode)
  {
    if !TruthyStr(opts.mode) {
      Enhancers.SelectDefault();
      Enhancers.SelectGeneralName();
      if opts.mode.Some? {
        assert opts.mode == Some("");
      }
    }
  }

  /** `fps or 30.0`. */
  function FpsOrDefault(fps: Option<real>): (r: real)
    ensures r != 0.0
    ensures TruthyReal(fps) ==> r == fps.value
    ensures !TruthyReal(fps) ==> r == 30.0
  {
    if TruthyReal(fps) then fps.value else 30.0
  }

  /** `rife_factor` when it is set and above 1, `interp_factor` otherwise. */
  function ChosenFactor(opts: ProcessOptions): (c: Option<int>)
    ensures TruthyInt(opts.rifeFactor) && opts.rifeFactor.value > 1 ==> c == opts.rifeFactor
    ensures !(TruthyInt(opts.rifeFactor) && opts.rifeFactor.value > 1) ==> c == opts.interpFactor
  {
    if TruthyInt(opts.rifeFactor) && opts.rifeFactor.value > 1 then opts.rifeFactor else opts.interpFactor
  }

  /** The frame rate to interpolate to: `fps * factor` when interpolation is
      asked for and the chosen factor is above 1, and none otherwise. */
  function InterpFps(opts: ProcessOptions, fps: real): (r: Option<real>)
    ensures r.Some? <==> TruthyBool(opts.interpolate) && ChosenFactor(opts).Some? && ChosenFactor(opts).value > 1
    ensures r.Some? ==> r.value == fps * ChosenFactor(opts).value as real
  {
    var c := ChosenFactor(opts);
    if TruthyBool(opts.interpolate) && TruthyInt(c) && c.value > 1 then Some(fps * c.value as real) else None
  }

  /** For a positive frame rate, an interpolation target is always above the
      input rate, so `assemble_video` adds its filter exactly when one is set. */
  lemma InterpolationReachesFilter(opts: ProcessOptions, fps: real, a: Ffmpeg.AssembleRequest)
    requires fps > 0.0 && a.fps == fps && a.interpolateToFps == InterpFps(opts, fps)
    ensures Ffmpeg.Interpolates(a) <==> InterpFps(opts, fps).Some?
  {
    var r := InterpFps(opts, fps);
    if r.Some? {
      var c := ChosenFactor(opts).value as real;
      assert r.value == fps * c;
      PositiveProduct(fps, c - 1.0);
      assert fps * c - fps == fps * (c - 1.0);
      assert a.interpolateToFps.value > a.fps;
    }
  }

  lemma PositiveProduct(x: real, y: real)
    requires x > 0.0 && y > 0.0
    ensures x * y > 0.0
  {
  }

  /** The frame total used for progress: the count reported by extraction,
      replaced by the number of listed files when it is non-zero and differs. */
  function TotalFrames(count: nat, listed: nat): (total: nat)
    ensures total == 0 || total == listed
    ensures count == listed ==> total == count
    ensures total == 0 <==> count == 0 || listed == 0
  {
    if count != 0 && listed != count then listed else count
  }

  // ---------------------------------------------------------------------------
  // Runs

  /** The argument names of an `apply_enhancements(...)` call. */
  datatype EnhanceRequest = EnhanceRequest(inputPath: string, outputPath: string, mode: string, strength: real)

  /** Work done on behalf of a job, in order. */
  datatype Event =
    | Upscale(upscale: UpscaleRequest)
    | Enhance(enhance: EnhanceRequest)
    | RunProbe(probeCmd: seq<string>)
    | RunExtract(extractCmd: seq<string>)
    | RunAudio(audioCmd: seq<string>)
    | RunAssemble(assembleCmd: seq<string>)
    | RemoveRaw(rawDir: string)
    | Progress(fraction: real)

  /** The points at which the pipeline reads `cancel_requested`. */
  datatype Checkpoint = Start | BeforeFrame(index: nat) | BeforeAssemble

  /** What the pipeline observes of the world. */
  datatype Env = Env(
    outputDir: string,                      // AppConfig.storage_output_dir()
    framesRoot: string,                     // AppConfig.tmp_frames_dir()
    cancelled: Checkpoint -> bool,          // getattr(job, "cancel_requested", False) at each check
    hasFfmpeg: bool,
    hasFfprobe: bool,
    probeStdout: Option<string>,            // what ffprobe printed, None if it failed
    extractError: Option<string>,           // message of the frame extraction's failure
    countListing: seq<string>,              // os.listdir(raw) inside extract_frames
    frameListing: seq<string>,              // os.listdir(raw) inside list_frame_files
    audioError: Option<string>,             // failure of the audio extraction
    pathExists: string -> bool,             // os.path.exists
    show: real -> string,                   // str on floats
    assembleError: Option<string>,          // failure of the assembly command
    upscale: UpscaleRequest -> Option<string>,   // message raised by an upscale_image call
    enhance: EnhanceRequest -> Option<string>)   // message raised by an apply_enhancements call

  /** The outcome of a run (a value or the message of the exception it
      raised) and the work it did. */
  datatype Run<T> = Run(outcome: Result<T, string>, trace: seq<Event>)

  const Cancelled: string := "cancelled"
  const FfmpegMissing: string := "ffmpeg is required for video processing but was not found in PATH"

  /** The progress values reported along a trace, in order. */
  function ProgressValues(t: seq<Event>): seq<real>
    decreases |t|
  {
    if t == [] then []
    else ProgressValues(t[..|t| - 1]) + (if t[|t| - 1].Progress? then [t[|t| - 1].fraction] else [])
  }

  lemma {:induction false} ProgressValuesAppend(a: seq<Event>, b: seq<Event>)
    ensures ProgressValues(a + b) == ProgressValues(a) + ProgressValues(b)
    decreases |b|
  {
    if b == [] {
      assert a + b == a;
    } else {
      var b' := b[..|b| - 1];
      assert (a + b)[..|a + b| - 1] == a + b';
      ProgressValuesAppend(a, b');
    }
  }

  /** The inputs of the upscaling calls along a trace, in order. */
  function UpscaleInputs(t: seq<Event>): seq<string>
    decreases |t|
  {
    if t == [] then []
    else UpscaleInputs(t[..|t| - 1]) + (if t[|t| - 1].Upscale? then [t[|t| - 1].upscale.inputPath] else [])
  }

  lemma {:induction false} UpscaleInputsAppend(a: seq<Event>, b: seq<Event>)
    ensures UpscaleInputs(a + b) == UpscaleInputs(a) + UpscaleInputs(b)
    decreases |b|
  {
    if b == [] {
      assert a + b == a;
    } else {
      var b' := b[..|b| - 1];
      assert (a + b)[..|a + b| - 1] == a + b';
      UpscaleInputsAppend(a, b');
    }
  }

  lemma ProgressValuesEmpty()
    ensures ProgressValues([]) == []
  {
  }

  lemma ProgressValuesSingle(e: Event)
    ensures ProgressValues([e]) == if e.Progress? then [e.fraction] else []
  {
    assert [e][..0] == [];
  }

  lemma UpscaleInputsSingle(e: Event)
    ensures UpscaleInputs([e]) == if e.Upscale? then [e.upscale.inputPath] else []
  {
    assert [e][..0] == [];
  }

  // ---------------------------------------------------------------------------
  // Image jobs

  /** `output_path` of an image job. */
  function ImageOutputPath(inputPath: string, opts: ProcessOptions, env: Env): string {
    PyPath.Join(env.outputDir, OutputName(BaseName(inputPath), Suffix(opts.mode, "upscaled"),
                                          OutputFormat(opts.format, "png", ImageFormats)))
  }

  /** `temp_up`, where an image job's upscaler writes. */
  function ImageTempPath(inputPath: string, opts: ProcessOptions, env: Env): string {
    PyPath.Join(env.outputDir, BaseName(inputPath) + "_tmp_upscale." + OutputFormat(opts.format, "png", ImageFormats))
  }

  /** The upscaling call of an image job. */
  function ImageUpscale(inputPath: string, opts: ProcessOptions, env: Env): UpscaleRequest {
    UpscaleRequest(inputPath, ImageTempPath(inputPath, opts, env), opts.scale, opts.targetWidth, opts.targetHeight, opts.realesrganModel)
  }

  /** The enhancement call of an image job: from the upscaled file when
      there was upscaling, from the input otherwise, into the output path. */
  function ImageEnhance(inputPath: string, opts: ProcessOptions, env: Env): EnhanceRequest {
    EnhanceRequest(if Upscaling(opts) then ImageTempPath(inputPath, opts, env) else inputPath,
                   ImageOutputPath(inputPath, opts, env), EnhanceMode(opts), EnhanceStrength(opts))
  }

  /** `_process_image`. */
  function ImageRun(inputPath: string, opts: ProcessOptions, env: Env): Run<string> {
    if env.cancelled(Start) then Run(Failure(Cancelled), [])
    else
      var req := ImageUpscale(inputPath, opts, env);
      var up: seq<Event> := if Upscaling(opts) then [Upscale(req)] else [];
      if Upscaling(opts) && env.upscale(req).Some? then Run(Failure(env.upscale(req).value), up)
      else
        var ereq := ImageEnhance(inputPath, opts, env);
        if env.enhance(ereq).Some? then Run(Failure(env.enhance(ereq).value), up + [Enhance(ereq)])
        else Run(Success(ImageOutputPath(inputPath, opts, env)), up + [Enhance(ereq)] + [Progress(1.0)])
  }

  /** A cancelled image job does nothing and fails with "cancelled". */
  lemma ImageCancelFirst(inputPath: string, opts: ProcessOptions, env: Env)
    requires env.cancelled(Start)
    ensures ImageRun(inputPath, opts, env) == Run(Failure(Cancelled), [])
  {
  }

  lemma UpscaleInputsSnoc(t: seq<Event>, e: Event)
    ensures UpscaleInputs(t + [e]) == UpscaleInputs(t) + (if e.Upscale? then [e.upscale.inputPath] else [])
  {
    assert (t + [e])[..|t|] == t;
  }

  lemma ProgressValuesSnoc(t: seq<Event>, e: Event)
    ensures ProgressValues(t + [e]) == ProgressValues(t) + (if e.Progress? then [e.fraction] else [])
  {
    assert (t + [e])[..|t|] == t;
  }

  /** The upscaler is called on an image job, once and on its input,
      exactly when a scale or a target size is set and the job was not
      cancelled; it is the first thing the job does, and nothing else is
      upscaled. */
  lemma ImageUpscalesIff(inputPath: string, opts: ProcessOptions, env: Env)
    ensures var run := ImageRun(inputPath, opts, env);
      UpscaleInputs(run.trace) == (if Upscaling(opts) && !env.cancelled(Start) then [inputPath] else [])
      && (Upscaling(opts) && !env.cancelled(Start) <==> |run.trace| > 0 && run.trace[0].Upscale?)
  {
    if !env.cancelled(Start) {
      var req := ImageUpscale(inputPath, opts, env);
      var ereq := ImageEnhance(inputPath, opts, env);
      var up: seq<Event> := if Upscaling(opts) then [Upscale(req)] else [];
      UpscaleInputsSnoc([], Upscale(req));
      assert [] + [Upscale(req)] == [Upscale(req)];
      UpscaleInputsSnoc(up, Enhance(ereq));
      UpscaleInputsSnoc(up + [Enhance(ereq)], Progress(1.0));
    }
  }

  /** The enhancer of an image job reads the upscaled file when there was
      upscaling and the input otherwise, writes the output path, and gets
      "general" for a missing or empty mode and 0.6 for a missing strength. */
  lemma ImageEnhanceArguments(inputPath: string, opts: ProcessOptions, env: Env)
    ensures var e := ImageEnhance(inputPath, opts, env);
      var fmt := OutputFormat(opts.format, "png", ImageFormats);
      var base := BaseName(inputPath);
      && e.inputPath == (if Upscaling(opts) then PyPath.Join(env.outputDir, base + "_tmp_upscale." + fmt) else inputPath)
      && e.outputPath == PyPath.Join(env.outputDir, OutputName(base, Suffix(opts.mode, "upscaled"), fmt))
      && (!TruthyStr(opts.mode) ==> e.mode == "general")
      && (TruthyStr(opts.mode) ==> e.mode == opts.mode.value)
      && e.strength == (if opts.strength.None? then 0.6 else opts.strength.value)
  {
  }

  /** The only enhancement call of an image job is that one, and it reads
      the file the upscaler wrote when there was upscaling. */
  lemma ImageEnhanceCall(inputPath: string, opts: ProcessOptions, env: Env, i: nat)
    requires i < |ImageRun(inputPath, opts, env).trace| && ImageRun(inputPath, opts, env).trace[i].Enhance?
    ensures ImageRun(inputPath, opts, env).trace[i].enhance == ImageEnhance(inputPath, opts, env)
    ensures Upscaling(opts) ==> i == 1 && ImageRun(inputPath, opts, env).trace[0].upscale.outputPath
                                         == ImageRun(inputPath, opts, env).trace[i].enhance.inputPath
    ensures !Upscaling(opts) ==> i == 0
  {
  }

  /** An image job reports progress once, 1.0, and only when it succeeds,
      with the output path as its result. */
  lemma ImageProgress(inputPath: string, opts: ProcessOptions, env: Env)
    ensures var run := ImageRun(inputPath, opts, env);
      ProgressValues(run.trace) == (if run.outcome.Success? then [1.0] else [])
      && (run.outcome.Success? ==>
            run.outcome.value == PyPath.Join(env.outputDir, OutputName(BaseName(inputPath), Suffix(opts.mode, "upscaled"),
                                                                      OutputFormat(opts.format, "png", ImageFormats))))
  {
    if !env.cancelled(Start) {
      var req := ImageUpscale(inputPath, opts, env);
      var ereq := ImageEnhance(inputPath, opts, env);
      var up: seq<Event> := if Upscaling(opts) then [Upscale(req)] else [];
      ProgressValuesSnoc([], Upscale(req));
      assert [] + [Upscale(req)] == [Upscale(req)];
      ProgressValuesSnoc(up, Enhance(ereq));
      ProgressValuesSnoc(up + [Enhance(ereq)], Progress(1.0));
    }
  }

  /** `set_progress` on `job` with `p`, keeping track of the values reported so far. */
  method Report(job: Jobs.Job, jm: Jobs.JobManager, p: real,
                ghost before: Jobs.Record, ghost jobs0: map<string, Jobs.Job>, ghost updates0: seq<Jobs.Record>, ghost ps: seq<real>)
    requires Jobs.Pushed(jm, job, before, jobs0, updates0, ps)
    modifies jm, job
    ensures Jobs.Pushed(jm, job, before, jobs0, updates0, ps + [p])
  {
    jm.SetProgress(job, p);
    Jobs.ProgressSnoc(before, ps, p);
  }

  /** `_process_image` on `job`: the run is the one `ImageRun` specifies, and
      the store saw exactly the progress values of its trace. */
  method ProcessImage(job: Jobs.Job, opts: ProcessOptions, jm: Jobs.JobManager, env: Env) returns (run: Run<string>)
    modifies job, jm
    ensures run == ImageRun(job.inputPath, opts, env)
    ensures Jobs.Pushed(jm, job, old(job.Snapshot()), old(jm.jobs), old(jm.updates), ProgressValues(run.trace))
  {
    var base := BaseName(job.inputPath);
    var outputFormat := OutputFormat(opts.format, "png", ImageFormats);
    var suffix := Suffix(opts.mode, "upscaled");
    var outputPath := PyPath.Join(env.outputDir, OutputName(base, suffix, outputFormat));
    Jobs.PushedNothing(jm, job);
    ProgressValuesEmpty();
    if env.cancelled(Start) {
      return Run(Failure(Cancelled), []);
    }
    var trace: seq<Event> := [];
    var src := job.inputPath;
    if Upscaling(opts) {
      var tempUp := PyPath.Join(env.outputDir, base + "_tmp_upscale." + outputFormat);
      var req := UpscaleRequest(job.inputPath, tempUp, opts.scale, opts.targetWidth, opts.targetHeight, opts.realesrganModel);
      trace := [Upscale(req)];
      var e := env.upscale(req);
      if e.Some? {
        return Run(Failure(e.value), trace);
      }
      src := tempUp;
    }
    var ereq := EnhanceRequest(src, outputPath, EnhanceMode(opts), EnhanceStrength(opts));
    trace := trace + [Enhance(ereq)];
    var e := env.enhance(ereq);
    if e.Some? {
      ProgressValuesAppend(trace[..|trace| - 1], [Enhance(ereq)]);
      return Run(Failure(e.value), trace);
    }
    assert ProgressValues(trace) == [] by {
      assert trace[..|trace| - 1] == [] || trace[..|trace| - 1] == [trace[0]];
    }
    Report(job, jm, 1.0, job.Snapshot(), jm.jobs, jm.updates, []);
    trace := trace + [Progress(1.0)];
    return Run(Success(outputPath), trace);
  }

  // ---------------------------------------------------------------------------
  // Video jobs: extraction

  /** What the first video stage hands on. */
  datatype Extracted = Extracted(jobDir: string, fps: real, count: nat, audioPath: string, audioOk: bool)

  /** The first stage of `_process_video`: the ffmpeg check, the first
      cancel check, the frame rate, frame and audio extraction, progress 0.1. */
  function ExtractStage(id: string, inputPath: string, env: Env): Run<Extracted> {
    if !Ffmpeg.FfmpegAvailable(env.hasFfmpeg, env.hasFfprobe) then Run(Failure(FfmpegMissing), [])
    else
      var jobDir := PyPath.Join(env.framesRoot, id);
      if env.cancelled(Start) then Run(Failure(Cancelled), [])
      else
        var fps := FpsOrDefault(Ffmpeg.GetVideoFps(env.probeStdout));
        var t := [RunProbe(Ffmpeg.ProbeCommand(inputPath))] + [RunExtract(Ffmpeg.ExtractCommand(inputPath, jobDir))];
        if env.extractError.Some? then Run(Failure(env.extractError.value), t)
        else
          var audioPath := PyPath.Join(jobDir, "audio.aac");
          Run(Success(Extracted(jobDir, fps, |Ffmpeg.FrameNames(env.countListing)|, audioPath, Ffmpeg.ExtractAudio(env.audioError))),
              t + [RunAudio(Ffmpeg.AudioCommand(inputPath, audioPath))] + [Progress(0.1)])
  }

  method ExtractVideo(job: Jobs.Job, jm: Jobs.JobManager, env: Env) returns (run: Run<Extracted>)
    modifies job, jm
    ensures run == ExtractStage(job.id, job.inputPath, env)
    ensures Jobs.Pushed(jm, job, old(job.Snapshot()), old(jm.jobs), old(jm.updates), ProgressValues(run.trace))
  {
    Jobs.PushedNothing(jm, job);
    ProgressValuesEmpty();
    if !Ffmpeg.FfmpegAvailable(env.hasFfmpeg, env.hasFfprobe) {
      return Run(Failure(FfmpegMissing), []);
    }
    var framesJobDir := PyPath.Join(env.framesRoot, job.id);
    if env.cancelled(Start) {
      return Run(Failure(Cancelled), []);
    }
    var fps := FpsOrDefault(Ffmpeg.GetVideoFps(env.probeStdout));
    var trace := [RunProbe(Ffmpeg.ProbeCommand(job.inputPath))];
    ProgressValuesSingle(RunProbe(Ffmpeg.ProbeCommand(job.inputPath)));
    ProgressValuesSnoc(trace, RunExtract(Ffmpeg.ExtractCommand(job.inputPath, framesJobDir)));
    trace := trace + [RunExtract(Ffmpeg.ExtractCommand(job.inputPath, framesJobDir))];
    var totalFrames := Ffmpeg.ExtractFrames(env.extractError, env.countListing);
    if totalFrames.Failure? {
      return Run(Failure(totalFrames.error), trace);
    }
    var audioPath := PyPath.Join(framesJobDir, "audio.aac");
    var audioExtracted := Ffmpeg.ExtractAudio(env.audioError);
    ProgressValuesSnoc(trace, RunAudio(Ffmpeg.AudioCommand(job.inputPath, audioPath)));
    trace := trace + [RunAudio(Ffmpeg.AudioCommand(job.inputPath, audioPath))];
    Report(job, jm, 0.1, job.Snapshot(), jm.jobs, jm.updates, []);
    ProgressValuesSnoc(trace, Progress(0.1));
    trace := trace + [Progress(0.1)];
    run := Run(Success(Extracted(framesJobDir, fps, totalFrames.value, audioPath, audioExtracted)), trace);
  }

  // ---------------------------------------------------------------------------
  // Video jobs: frames

  /** The progress reported after the frame at `index` of `total`: the
      frames share the range from 0.1 to 0.9 evenly. */
  function FrameFraction(index: nat, total: nat): real
    requires total > 0
  {
    0.1 + 0.8 * ((index + 1) as real / total as real)
  }

  /** The progress reported after the frame at `index`, none when no frames
      are expected. */
  function FrameProgress(index: nat, total: nat): seq<Event> {
    if total != 0 then [Progress(FrameFraction(index, total))] else []
  }

  /** One iteration of the frame loop: the cancel check, upscaling into
      `processed/tmp_<name>`, enhancing into `processed/<name>`, progress. */
  function FrameStep(frame: string, index: nat, total: nat, processed: string,
                     opts: ProcessOptions, env: Env): Run<()> {
    if env.cancelled(BeforeFrame(index)) then Run(Failure(Cancelled), [])
    else
      var base := PyPath.Basename(frame);
      var tempUp := PyPath.Join(processed, "tmp_" + base);
      var req := UpscaleRequest(frame, tempUp, opts.scale, opts.targetWidth, opts.targetHeight, opts.realesrganModel);
      if env.upscale(req).Some? then Run(Failure(env.upscale(req).value), [Upscale(req)])
      else
        var ereq := EnhanceRequest(tempUp, PyPath.Join(processed, base), EnhanceMode(opts), EnhanceStrength(opts));
        if env.enhance(ereq).Some? then Run(Failure(env.enhance(ereq).value), [Upscale(req), Enhance(ereq)])
        else Run(Success(()), [Upscale(req), Enhance(ereq)] + FrameProgress(index, total))
  }

  /** `trace` followed by `run`. */
  function Then<T>(trace: seq<Event>, run: Run<T>): Run<T> {
    Run(run.outcome, trace + run.trace)
  }

  /** The steps of the frame loop, one per listed frame, each as it would
      run if the loop reached it. */
  function FrameSteps(files: seq<string>, total: nat, processed: string, opts: ProcessOptions, env: Env): seq<Run<()>> {
    seq(|files|, i requires 0 <= i < |files| => FrameStep(files[i], i, total, processed, opts, env))
  }

  /** A loop over `steps` from the one at `k` on that stops at the first
      step that raises. */
  function Chain(steps: seq<Run<()>>, k: nat): Run<()>
    requires k <= |steps|
    decreases |steps| - k
  {
    if k == |steps| then Run(Success(()), [])
    else if steps[k].outcome.Failure? then steps[k]
    else Then(steps[k].trace, Chain(steps, k + 1))
  }

  /** The frame loop of `_process_video` over the listed frames. */
  function FramesRun(files: seq<string>, total: nat, processed: string, opts: ProcessOptions, env: Env): Run<()> {
    Chain(FrameSteps(files, total, processed, opts, env), 0)
  }

  /** One iteration of the frame loop on `job`. */
  method ProcessFrame(job: Jobs.Job, opts: ProcessOptions, jm: Jobs.JobManager, env: Env,
                      framePath: string, index: nat, totalFrames: nat, processed: string) returns (step: Run<()>)
    modifies job, jm
    ensures step == FrameStep(framePath, index, totalFrames, processed, opts, env)
    ensures Jobs.Pushed(jm, job, old(job.Snapshot()), old(jm.jobs), old(jm.updates), ProgressValues(step.trace))
  {
    Jobs.PushedNothing(jm, job);
    ProgressValuesEmpty();
    if env.cancelled(BeforeFrame(index)) {
      return Run(Failure(Cancelled), []);
    }
    var base := PyPath.Basename(framePath);
    var outFrame := PyPath.Join(processed, base);
    var tempUp := PyPath.Join(processed, "tmp_" + base);
    var req := UpscaleRequest(framePath, tempUp, opts.scale, opts.targetWidth, opts.targetHeight, opts.realesrganModel);
    ProgressValuesSingle(Upscale(req));
    var e := env.upscale(req);
    if e.Some? {
      return Run(Failure(e.value), [Upscale(req)]);
    }
    var ereq := EnhanceRequest(tempUp, outFrame, EnhanceMode(opts), EnhanceStrength(opts));
    ProgressValuesSnoc([Upscale(req)], Enhance(ereq));
    var trace := [Upscale(req)] + [Enhance(ereq)];
    var e2 := env.enhance(ereq);
    if e2.Some? {
      return Run(Failure(e2.value), trace);
    }
    if totalFrames != 0 {
      var stageProgress := FrameFraction(index, totalFrames);
      Report(job, jm, stageProgress, job.Snapshot(), jm.jobs, jm.updates, []);
      ProgressValuesSnoc(trace, Progress(stageProgress));
      trace := trace + [Progress(stageProgress)];
    }
    return Run(Success(()), trace);
  }

  /** One more step of the loop: it either ends the run or hands on to the next. */
  lemma ChainAdvance(steps: seq<Run<()>>, k: nat, trace: seq<Event>)
    requires k < |steps| && Chain(steps, 0) == Then(trace, Chain(steps, k))
    ensures steps[k].outcome.Failure? ==> Chain(steps, 0) == Run(steps[k].outcome, trace + steps[k].trace)
    ensures steps[k].outcome.Success? ==> Chain(steps, 0) == Then(trace + steps[k].trace, Chain(steps, k + 1))
  {
    var rest := Chain(steps, k + 1);
    assert trace + (steps[k].trace + rest.trace) == (trace + steps[k].trace) + rest.trace;
  }

  /** The frame loop of `_process_video` on `job`: the run is the one
      `FramesRun` specifies, and the store saw exactly its progress values. */
  method ProcessFrames(job: Jobs.Job, opts: ProcessOptions, jm: Jobs.JobManager, env: Env,
                       frameFiles: seq<string>, totalFrames: nat, processed: string) returns (run: Run<()>)
    modifies job, jm
    ensures run == FramesRun(frameFiles, totalFrames, processed, opts, env)
    ensures Jobs.Pushed(jm, job, old(job.Snapshot()), old(jm.jobs), old(jm.updates), ProgressValues(run.trace))
  {
    ghost var before, jobs0, updates0 := job.Snapshot(), jm.jobs, jm.updates;
    ghost var steps := FrameSteps(frameFiles, totalFrames, processed, opts, env);
    Jobs.PushedNothing(jm, job);
    ProgressValuesEmpty();
    var trace: seq<Event> := [];
    var completed: nat := 0;
    while completed < |frameFiles|
      invariant completed <= |frameFiles|
      invariant Chain(steps, 0) == Then(trace, Chain(steps, completed))
      invariant Jobs.Pushed(jm, job, before, jobs0, updates0, ProgressValues(trace))
      decreases |frameFiles| - completed
    {
      var step := ProcessFrame(job, opts, jm, env, frameFiles[completed], completed, totalFrames, processed);
      assert step == steps[completed];
      Jobs.PushedCompose(jm, job, before, jobs0, updates0, ProgressValues(trace), ProgressValues(step.trace));
      ProgressValuesAppend(trace, step.trace);
      ChainAdvance(steps, completed, trace);
      if step.outcome.Failure? {
        return Run(step.outcome, trace + step.trace);
      }
      trace := trace + step.trace;
      completed := completed + 1;
    }
    return Run(Success(()), trace);
  }

  // ---------------------------------------------------------------------------
  // Video jobs: assembly

  /** `output_path` of a video job. */
  function VideoOutputPath(inputPath: string, opts: ProcessOptions, env: Env): string {
    PyPath.Join(env.outputDir, OutputName(BaseName(inputPath), Suffix(opts.mode, "enhanced"),
                                          OutputFormat(opts.format, "mp4", VideoFormats)))
  }

  /** The last stage of `_process_video`: the last cancel check, the
      interpolation target, assembly, cleanup and progress. */
  function AssembleStage(inputPath: string, opts: ProcessOptions, env: Env, x: Extracted, processed: string): Run<string> {
    var outputPath := VideoOutputPath(inputPath, opts, env);
    if env.cancelled(BeforeAssemble) then Run(Failure(Cancelled), [])
    else
      var cmd := [RunAssemble(Ffmpeg.AssembleCommand(AssembleFor(opts, x, processed, outputPath), env.pathExists, env.show))];
      if env.assembleError.Some? then Run(Failure(env.assembleError.value), cmd)
      else Run(Success(outputPath), cmd + [Progress(0.98), RemoveRaw(PyPath.Join(x.jobDir, "raw")), Progress(1.0)])
  }

  /** The arguments of the `assemble_video` call. */
  function AssembleFor(opts: ProcessOptions, x: Extracted, processed: string, outputPath: string): (a: Ffmpeg.AssembleRequest)
    ensures a.audioPath.Some? <==> x.audioOk
    ensures a.audioPath.Some? ==> a.audioPath.value == x.audioPath
    ensures a.fps == x.fps && a.framesDir == processed && a.outputPath == outputPath
    ensures a.interpolateToFps == InterpFps(opts, x.fps) && a.videoBitrate == opts.videoBitrate
  {
    Ffmpeg.AssembleRequest(processed, x.fps, outputPath, if x.audioOk then Some(x.audioPath) else None,
                           opts.videoBitrate, InterpFps(opts, x.fps))
  }

  /** The last stage on `job`. */
  method AssembleOutput(job: Jobs.Job, opts: ProcessOptions, jm: Jobs.JobManager, env: Env,
                        x: Extracted, processed: string) returns (run: Run<string>)
    modifies job, jm
    ensures run == AssembleStage(job.inputPath, opts, env, x, processed)
    ensures Jobs.Pushed(jm, job, old(job.Snapshot()), old(jm.jobs), old(jm.updates), ProgressValues(run.trace))
  {
    var outputPath := VideoOutputPath(job.inputPath, opts, env);
    Jobs.PushedNothing(jm, job);
    if env.cancelled(BeforeAssemble) {
      ProgressValuesEmpty();
      return Run(Failure(Cancelled), []);
    }
    var interpFps := InterpFps(opts, x.fps);
    var req := Ffmpeg.AssembleRequest(processed, x.fps, outputPath, if x.audioOk then Some(x.audioPath) else None,
                                      opts.videoBitrate, interpFps);
    assert req == AssembleFor(opts, x, processed, outputPath);
    var cmd, r := Ffmpeg.AssembleVideo(req, env.pathExists, env.show, env.assembleError);
    var trace := [RunAssemble(cmd)];
    ProgressValuesSingle(RunAssemble(cmd));
    if r.Failure? {
      return Run(Failure(r.error), trace);
    }
    var finish := FinishVideo(job, jm, x.jobDir);
    ProgressValuesAppend(trace, finish);
    assert ProgressValues(trace + finish) == ProgressValues(finish);
    run := Run(Success(outputPath), trace + finish);
  }

  /** After assembly: progress 0.98, removing the raw frames, progress 1.0. */
  method FinishVideo(job: Jobs.Job, jm: Jobs.JobManager, jobDir: string) returns (trace: seq<Event>)
    modifies job, jm
    ensures trace == [Progress(0.98), RemoveRaw(PyPath.Join(jobDir, "raw")), Progress(1.0)]
    ensures Jobs.Pushed(jm, job, old(job.Snapshot()), old(jm.jobs), old(jm.updates), ProgressValues(trace))
  {
    ghost var before, jobs0, updates0 := job.Snapshot(), jm.jobs, jm.updates;
    Report(job, jm, 0.98, before, jobs0, updates0, []);
    trace := [Progress(0.98)];
    ProgressValuesSingle(Progress(0.98));
    assert [] + [0.98] == ProgressValues(trace);
    ProgressValuesSnoc(trace, RemoveRaw(PyPath.Join(jobDir, "raw")));
    trace := trace + [RemoveRaw(PyPath.Join(jobDir, "raw"))];
    Report(job, jm, 1.0, before, jobs0, updates0, ProgressValues(trace));
    ProgressValuesSnoc(trace, Progress(1.0));
    trace := trace + [Progress(1.0)];
  }

  // ---------------------------------------------------------------------------
  // Video jobs: the whole run

  /** The frame files `list_frame_files` returns for the job directory. */
  function VideoFiles(jobDir: string, env: Env): seq<string> {
    LexOrder.SortSeq(Ffmpeg.FramePaths(Ffmpeg.RawDir(jobDir), env.frameListing))
  }

  /** `_process_video`. */
  function VideoRun(id: string, inputPath: string, opts: ProcessOptions, env: Env): Run<string> {
    var ex := ExtractStage(id, inputPath, env);
    if ex.outcome.Failure? then Run(Failure(ex.outcome.error), ex.trace)
    else Then(ex.trace, FramesAndAssemble(inputPath, opts, env, ex.outcome.value))
  }

  /** `_process_video` once the frames are extracted: the frame loop, then
      assembly unless the loop failed. */
  function FramesAndAssemble(inputPath: string, opts: ProcessOptions, env: Env, x: Extracted): Run<string> {
    var files := VideoFiles(x.jobDir, env);
    var processed := PyPath.Join(x.jobDir, "processed");
    var frames := FramesRun(files, TotalFrames(x.count, |files|), processed, opts, env);
    if frames.outcome.Failure? then Run(Failure(frames.outcome.error), frames.trace)
    else Then(frames.trace, AssembleStage(inputPath, opts, env, x, processed))
  }

  method ProcessVideo(job: Jobs.Job, opts: ProcessOptions, jm: Jobs.JobManager, env: Env) returns (run: Run<string>)
    modifies job, jm
    ensures run == VideoRun(job.id, job.inputPath, opts, env)
    ensures Jobs.Pushed(jm, job, old(job.Snapshot()), old(jm.jobs), old(jm.updates), ProgressValues(run.trace))
  {
    ghost var r0, j0, u0 := job.Snapshot(), jm.jobs, jm.updates;
    var ex := ExtractVideo(job, jm, env);
    if ex.outcome.Failure? {
      return Run(Failure(ex.outcome.error), ex.trace);
    }
    var rest := ProcessExtracted(job, opts, jm, env, ex.outcome.value);
    Jobs.PushedCompose(jm, job, r0, j0, u0, ProgressValues(ex.trace), ProgressValues(rest.trace));
    ProgressValuesAppend(ex.trace, rest.trace);
    run := Then(ex.trace, rest);
  }

  /** `_process_video` on `job` once the frames are extracted. */
  method ProcessExtracted(job: Jobs.Job, opts: ProcessOptions, jm: Jobs.JobManager, env: Env, x: Extracted)
    returns (run: Run<string>)
    modifies job, jm
    ensures run == FramesAndAssemble(job.inputPath, opts, env, x)
    ensures Jobs.Pushed(jm, job, old(job.Snapshot()), old(jm.jobs), old(jm.updates), ProgressValues(run.trace))
  {
    ghost var r0, j0, u0 := job.Snapshot(), jm.jobs, jm.updates;
    var frameFiles := Ffmpeg.ListFrameFiles(x.jobDir, env.frameListing);
    var totalFrames := x.count;
    if totalFrames != 0 && |frameFiles| != totalFrames {
      totalFrames := |frameFiles|;
    }
    var processedDir := PyPath.Join(x.jobDir, "processed");
    var frames := ProcessFrames(job, opts, jm, env, frameFiles, totalFrames, processedDir);
    if frames.outcome.Failure? {
      return Run(Failure(frames.outcome.error), frames.trace);
    }
    var assembled := AssembleOutput(job, opts, jm, env, x, processedDir);
    Jobs.PushedCompose(jm, job, r0, j0, u0, ProgressValues(frames.trace), ProgressValues(assembled.trace));
    ProgressValuesAppend(frames.trace, assembled.trace);
    run := Then(frames.trace, assembled);
  }

  // ---------------------------------------------------------------------------
  // Dispatch

  /** `process_media`: images and videos go to their pipelines; any other
      media type fails before any work. */
  function MediaRun(id: string, inputPath: string, mediaType: string, options: Jobs.Options, env: Env): (run: Run<string>)
    ensures mediaType == "image" ==> run == ImageRun(inputPath, FromDict(options), env)
    ensures mediaType == "video" ==> run == VideoRun(id, inputPath, FromDict(options), env)
    ensures mediaType !in {"image", "video"} ==> run == Run(Failure("Unsupported media type: " + mediaType), [])
  {
    var opts := FromDict(options);
    if mediaType == "image" then ImageRun(inputPath, opts, env)
    else if mediaType == "video" then VideoRun(id, inputPath, opts, env)
    else Run(Failure("Unsupported media type: " + mediaType), [])
  }

  method ProcessMedia(job: Jobs.Job, jm: Jobs.JobManager, env: Env) returns (run: Run<string>)
    modifies job, jm
    ensures run == MediaRun(job.id, job.inputPath, job.mediaType, job.options, env)
    ensures Jobs.Pushed(jm, job, old(job.Snapshot()), old(jm.jobs), old(jm.updates), ProgressValues(run.trace))
  {
    Jobs.PushedNothing(jm, job);
    ProgressValuesEmpty();
    var options := FromDict(job.options);
    if job.mediaType == "image" {
      run := ProcessImage(job, options, jm, env);
    } else if job.mediaType == "video" {
      run := ProcessVideo(job, options, jm, env);
    } else {
      run := Run(Failure("Unsupported media type: " + job.mediaType), []);
    }
  }
}
