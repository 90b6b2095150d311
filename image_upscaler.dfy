/** Image upscaling (backend/app/services/image_upscaler.py): try the
    Real-ESRGAN command-line tool for whole scale factors 2, 3 and 4, and
    otherwise resize with Pillow (or copy the file when Pillow is missing).
    The environment, the file system and the image library are represented
    by an `UpscalerEnv` of observed values and outcomes. */
module ImageUpscaler {
  import opened Wrappers
  import PyText
  import PyNum
  import PyPath

  const DefaultModelsDir: string := "/app/models/realesrgan"

  /** What `upscale_image` observes of the world. */
  datatype UpscalerEnv = UpscalerEnv(
    cliExe: Option<string>,                          // shutil.which("realesrgan-ncnn-vulkan")
    modelsDirVar: Option<string>,                    // os.environ.get("REALESRGAN_MODELS_DIR")
    isDir: string -> bool,                           // os.path.isdir
    threadsVar: Option<string>,                      // os.environ.get("NCNN_THREADS")
    gpuVar: Option<string>,                          // os.environ.get("NCNN_GPU")
    cliFails: seq<string> -> bool,                   // subprocess.run(cmd, check=True) raises
    hasPillow: bool,                                 // `from PIL import Image` succeeded
    openImage: string -> Result<(nat, nat), string>, // Image.open: the (width, height), or the error
    saveError: string -> Option<string>,             // upscaled.save to that path raises
    copyError: string -> Option<string>)             // shutil.copy2 from that path raises

  // ---------------------------------------------------------------------------
  // The command-line path

  /** `scale and float(scale).is_integer() and int(scale) in {2, 3, 4}`. */
  predicate CliEligible(scale: Option<real>) {
    TruthyReal(scale) && PyNum.IsIntegral(scale.value) && PyNum.Trunc(scale.value) in {2, 3, 4}
  }

  /** The command-line tool is only tried for the scales 2, 3 and 4. */
  lemma CliEligibleScales(scale: Option<real>)
    ensures CliEligible(scale) <==> scale == Some(2.0) || scale == Some(3.0) || scale == Some(4.0)
  {
    if scale.Some? && PyNum.IsIntegral(scale.value) {
      assert scale.value == scale.value.Floor as real;
    }
  }

  /** `os.environ.get("REALESRGAN_MODELS_DIR", "/app/models/realesrgan")`: a
      variable that is set, even to "", wins over the default. */
  function ModelsDir(env: UpscalerEnv): (dir: string)
    ensures env.modelsDirVar.None? ==> dir == DefaultModelsDir
    ensures env.modelsDirVar.Some? ==> dir == env.modelsDirVar.value
  {
    env.modelsDirVar.GetOr(DefaultModelsDir)
  }

  predicate UsesGpuFlag(env: UpscalerEnv) {
    env.gpuVar.Some? && env.gpuVar.value in {"0", "1"}
  }

  /** The command `_upscale_with_realesrgan_cli` runs, as one expression. */
  function CliCommand(exe: string, inputPath: string, outputPath: string, scale: real, env: UpscalerEnv): seq<string> {
    [exe, "-i", inputPath, "-o", outputPath, "-s", PyNum.IntToString(PyNum.Trunc(scale))]
    + ModelArgs(env) + ThreadArgs(env) + GpuArgs(env)
  }

  /** `-m` with the models directory, when it is a directory. */
  function ModelArgs(env: UpscalerEnv): seq<string> {
    if env.isDir(ModelsDir(env)) then ["-m", ModelsDir(env)] else []
  }

  /** `-t` with `NCNN_THREADS`, when it is non-empty. */
  function ThreadArgs(env: UpscalerEnv): seq<string> {
    if TruthyStr(env.threadsVar) then ["-t", env.threadsVar.value] else []
  }

  /** `-g` with `NCNN_GPU`, when it is "0" or "1". */
  function GpuArgs(env: UpscalerEnv): seq<string> {
    if UsesGpuFlag(env) then ["-g", env.gpuVar.value] else []
  }

  /** The list building of `_upscale_with_realesrgan_cli`. */
  method BuildCliCommand(exe: string, inputPath: string, outputPath: string, scale: real, env: UpscalerEnv)
    returns (cmd: seq<string>)
    ensures cmd == CliCommand(exe, inputPath, outputPath, scale, env)
  {
    cmd := [exe, "-i", inputPath, "-o", outputPath, "-s", PyNum.IntToString(PyNum.Trunc(scale))];
    var modelsDir := ModelsDir(env);
    if env.isDir(modelsDir) {
      cmd := cmd + ["-m", modelsDir];
    }
    if TruthyStr(env.threadsVar) {
      cmd := cmd + ["-t", env.threadsVar.value];
    }
    if env.gpuVar.Some? && env.gpuVar.value in {"0", "1"} {
      cmd := cmd + ["-g", env.gpuVar.value];
    }
  }

  /** How the tool reads its options: flag/value pairs, the first pair with
      the flag giving its value. */
  function FlagValue(args: seq<string>, flag: string): Option<string>
    decreases |args|
  {
    if |args| < 2 then None
    else if args[0] == flag then Some(args[1])
    else FlagValue(args[2..], flag)
  }

  lemma FlagValuePair(a: string, b: string, q: seq<string>, flag: string)
    ensures FlagValue([a, b] + q, flag) == if a == flag then Some(b) else FlagValue(q, flag)
  {
    assert ([a, b] + q)[2..] == q;
  }

  lemma {:induction false} FlagValueConcat(p: seq<string>, q: seq<string>, flag: string)
    requires |p| % 2 == 0
    ensures FlagValue(p + q, flag) == if FlagValue(p, flag).Some? then FlagValue(p, flag) else FlagValue(q, flag)
    decreases |p|
  {
    if |p| == 0 {
      assert p + q == q;
    } else {
      assert (p + q)[2..] == p[2..] + q;
      FlagValueConcat(p[2..], q, flag);
    }
  }

  /** The options passed to the tool: input, output and scale, then the models
      directory exactly when it is a directory, the thread count exactly when
      `NCNN_THREADS` is non-empty, and the GPU index exactly when `NCNN_GPU`
      is "0" or "1". */
  lemma CliCommandOptions(exe: string, inputPath: string, outputPath: string, scale: real, env: UpscalerEnv)
    ensures var cmd := CliCommand(exe, inputPath, outputPath, scale, env);
      |cmd| >= 7 && |cmd| % 2 == 1 && cmd[0] == exe
      && FlagValue(cmd[1..], "-i") == Some(inputPath)
      && FlagValue(cmd[1..], "-o") == Some(outputPath)
      && FlagValue(cmd[1..], "-s") == Some(PyNum.IntToString(PyNum.Trunc(scale)))
      && FlagValue(cmd[1..], "-m") == (if env.isDir(ModelsDir(env)) then Some(ModelsDir(env)) else None)
      && FlagValue(cmd[1..], "-t") == (if TruthyStr(env.threadsVar) then env.threadsVar else None)
      && FlagValue(cmd[1..], "-g") == (if UsesGpuFlag(env) then env.gpuVar else None)
  {
    var cmd := CliCommand(exe, inputPath, outputPath, scale, env);
    var sc := PyNum.IntToString(PyNum.Trunc(scale));
    var opt := ModelArgs(env) + (ThreadArgs(env) + GpuArgs(env));
    assert cmd[1..] == ["-i", inputPath] + (["-o", outputPath] + (["-s", sc] + opt));
    var fixed := ["-i", inputPath] + (["-o", outputPath] + (["-s", sc] + opt));
    FixedFlags(inputPath, outputPath, sc, opt, "-i");
    FixedFlags(inputPath, outputPath, sc, opt, "-o");
    FixedFlags(inputPath, outputPath, sc, opt, "-s");
    FixedFlags(inputPath, outputPath, sc, opt, "-m");
    FixedFlags(inputPath, outputPath, sc, opt, "-t");
    FixedFlags(inputPath, outputPath, sc, opt, "-g");
    OptionalFlags(env);
  }

  /** Input, output and scale come first, then the optional flags. */
  lemma FixedFlags(inputPath: string, outputPath: string, sc: string, opt: seq<string>, flag: string)
    ensures FlagValue(["-i", inputPath] + (["-o", outputPath] + (["-s", sc] + opt)), flag) ==
      if flag == "-i" then Some(inputPath)
      else if flag == "-o" then Some(outputPath)
      else if flag == "-s" then Some(sc)
      else FlagValue(opt, flag)
  {
    FlagValuePair("-i", inputPath, ["-o", outputPath] + (["-s", sc] + opt), flag);
    FlagValuePair("-o", outputPath, ["-s", sc] + opt, flag);
    FlagValuePair("-s", sc, opt, flag);
  }

  /** The optional flags each carry their own setting and nothing else. */
  lemma OptionalFlags(env: UpscalerEnv)
    ensures var opt := ModelArgs(env) + (ThreadArgs(env) + GpuArgs(env));
      && |opt| % 2 == 0
      && FlagValue(opt, "-m") == (if env.isDir(ModelsDir(env)) then Some(ModelsDir(env)) else None)
      && FlagValue(opt, "-t") == (if TruthyStr(env.threadsVar) then env.threadsVar else None)
      && FlagValue(opt, "-g") == (if UsesGpuFlag(env) then env.gpuVar else None)
  {
    var m, t, g := ModelArgs(env), ThreadArgs(env), GpuArgs(env);
    forall flag: string | flag in {"-m", "-t", "-g"}
      ensures FlagValue(m + (t + g), flag) ==
        if FlagValue(m, flag).Some? then FlagValue(m, flag)
        else if FlagValue(t, flag).Some? then FlagValue(t, flag)
        else FlagValue(g, flag)
    {
      FlagValueConcat(m, t + g, flag);
      FlagValueConcat(t, g, flag);
    }
    assert FlagValue(m, "-m") == (if env.isDir(ModelsDir(env)) then Some(ModelsDir(env)) else None);
    assert FlagValue(m, "-t") == None && FlagValue(m, "-g") == None;
    assert FlagValue(t, "-t") == (if TruthyStr(env.threadsVar) then env.threadsVar else None);
    assert FlagValue(t, "-m") == None && FlagValue(t, "-g") == None;
    assert FlagValue(g, "-g") == (if UsesGpuFlag(env) then env.gpuVar else None);
    assert FlagValue(g, "-m") == None && FlagValue(g, "-t") == None;
  }

  /** For an eligible scale the tool is asked for the factor 2, 3 or 4. */
  lemma CliScaleArgument(exe: string, inputPath: string, outputPath: string, scale: real, env: UpscalerEnv)
    requires CliEligible(Some(scale))
    ensures CliCommand(exe, inputPath, outputPath, scale, env)[6] in {"2", "3", "4"}
  {
    var k := PyNum.Trunc(scale);
    assert PyNum.IntToString(k) == PyNum.NatToString(k);
  }

  // ---------------------------------------------------------------------------
  // The Pillow path

  /** The new size of `_upscale_with_pillow`: both targets when both are
      truthy, otherwise the size times a positive scale (truncated, like
      `int`), otherwise the original size. */
  function PillowSize(size: (nat, nat), scale: Option<real>, targetWidth: Option<int>, targetHeight: Option<int>): (r: (int, int))
  {
    if TruthyInt(targetWidth) && TruthyInt(targetHeight) then (targetWidth.value, targetHeight.value)
    else if TruthyReal(scale) && scale.value > 0.0 then
      (ScaleSide(size.0, scale.value), ScaleSide(size.1, scale.value))
    else size
  }

  /** `int(side * scale)`. */
  function ScaleSide(side: nat, scale: real): int {
    PyNum.Trunc(side as real * scale)
  }

  /** Targets are used only as a pair: one target alone falls back to the scale. */
  lemma PillowSizeTargets(size: (nat, nat), scale: Option<real>, targetWidth: Option<int>, targetHeight: Option<int>)
    ensures TruthyInt(targetWidth) && TruthyInt(targetHeight) ==>
      PillowSize(size, scale, targetWidth, targetHeight) == (targetWidth.value, targetHeight.value)
    ensures !(TruthyInt(targetWidth) && TruthyInt(targetHeight)) ==>
      PillowSize(size, scale, targetWidth, targetHeight) == PillowSize(size, scale, None, None)
  {
  }

  /** A whole scale `k` multiplies both sides by exactly `k`. */
  lemma PillowSizeWholeScale(size: (nat, nat), k: nat)
    requires k > 0
    ensures PillowSize(size, Some(k as real), None, None) == (size.0 * k, size.1 * k)
  {
    TruncWhole(size.0, k);
    TruncWhole(size.1, k);
  }

  lemma TruncWhole(a: nat, k: nat)
    ensures ScaleSide(a, k as real) == a * k
  {
    assert a as real * k as real == (a * k) as real;
  }

  /** A scale of at least 1 never shrinks the image; without targets and a
      positive scale the size is kept. */
  lemma PillowSizeGrows(size: (nat, nat), scale: Option<real>)
    ensures scale.Some? && scale.value >= 1.0 ==>
      var r := PillowSize(size, scale, None, None); r.0 >= size.0 && r.1 >= size.1
    ensures !(TruthyReal(scale) && scale.value > 0.0) ==> PillowSize(size, scale, None, None) == size
  {
    if scale.Some? && scale.value >= 1.0 {
      ScaleSideGrows(size.0, scale.value);
      ScaleSideGrows(size.1, scale.value);
    }
  }

  lemma ScaleSideGrows(side: nat, scale: real)
    requires scale >= 1.0
    ensures ScaleSide(side, scale) >= side
  {
    assert side as real * scale >= side as real;
  }

  /** How the result is saved. */
  datatype SaveFormat = Jpeg(quality: nat) | Webp(quality: nat) | FromExtension

  /** The save format chosen from the output path's extension, ignoring case. */
  function SaveFormatFor(outputPath: string): SaveFormat {
    FormatOfExtension(PyText.Lower(PyPath.Splitext(outputPath).1))
  }

  /** JPEG and WebP at quality 95 for their extensions; Pillow's own choice otherwise. */
  function FormatOfExtension(ext: string): SaveFormat {
    if ext in {".jpg", ".jpeg"} then Jpeg(95)
    else if ext == ".webp" then Webp(95)
    else FromExtension
  }

  /** The choice of format ignores letter case. */
  lemma SaveFormatIgnoresCase(outputPath: string)
    ensures SaveFormatFor(PyText.Lower(outputPath)) == SaveFormatFor(outputPath)
  {
    PyPath.SplitextLowerExt(outputPath);
    PyText.LowerIdempotent(PyPath.Splitext(outputPath).1);
  }

  /** The file `dir/stem.fmt` is saved by the format `fmt` names. */
  lemma SaveFormatOfSuffix(dir: string, stem: string, fmt: string)
    requires '/' !in stem && !PyPath.AllDots(stem)
    requires fmt in {"png", "jpg", "jpeg", "webp"}
    ensures SaveFormatFor(PyPath.Join(dir, stem + "." + fmt)) == FormatOfExtension("." + fmt)
    ensures FormatOfExtension("." + fmt)
      == if fmt in {"jpg", "jpeg"} then Jpeg(95) else if fmt == "webp" then Webp(95) else FromExtension
  {
    LowerImageExtension(fmt);
    PyPath.SplitextJoin(dir, stem, fmt);
  }

  lemma LowerImageExtension(fmt: string)
    requires fmt in {"png", "jpg", "jpeg", "webp"}
    ensures '/' !in fmt && '.' !in fmt && PyText.Lower("." + fmt) == "." + fmt
    ensures FormatOfExtension("." + fmt)
      == if fmt in {"jpg", "jpeg"} then Jpeg(95) else if fmt == "webp" then Webp(95) else FromExtension
  {
    if fmt == "png" {
      assert "." + fmt == ".png" && PyText.Lower(".png") == ".png";
    } else if fmt == "jpg" {
      assert "." + fmt == ".jpg" && PyText.Lower(".jpg") == ".jpg";
    } else if fmt == "jpeg" {
      assert "." + fmt == ".jpeg" && PyText.Lower(".jpeg") == ".jpeg";
    } else {
      assert "." + fmt == ".webp" && PyText.Lower(".webp") == ".webp";
    }
  }

  // ---------------------------------------------------------------------------
  // upscale_image

  /** What a successful `upscale_image` did. */
  datatype Upscaled =
    | ByCli(cmd: seq<string>)
    | Copied
    | Resized(size: (int, int), format: SaveFormat)

  /** The message of the `ValueError` Pillow's `resize` raises for a side below 1. */
  const ResizeRefused: string := "height and width must be > 0"

  /** Whether Pillow's `img.resize(newSize)` returns: it copies the image when
      the size is unchanged, and otherwise needs both sides to be at least 1. */
  predicate ResizeAccepts(size: (nat, nat), newSize: (int, int)) {
    (newSize.0 == size.0 && newSize.1 == size.1) || (newSize.0 >= 1 && newSize.1 >= 1)
  }

  /** `_upscale_with_pillow`: a copy without Pillow; otherwise open, resize
      to the new size and save in the extension's format, each of which may
      raise. */
  function UpscaleWithPillow(inputPath: string, outputPath: string, scale: Option<real>,
                             targetWidth: Option<int>, targetHeight: Option<int>, env: UpscalerEnv): (r: Result<Upscaled, string>)
    ensures !env.hasPillow ==> (r.Success? <==> env.copyError(inputPath).None?) && (r.Success? ==> r.value == Copied)
    ensures env.hasPillow ==> match env.openImage(inputPath)
      case Failure(e) => r == Failure(e)
      case Success(size) =>
        var newSize := PillowSize(size, scale, targetWidth, targetHeight);
        (r.Success? <==> ResizeAccepts(size, newSize) && env.saveError(outputPath).None?)
        && (r.Success? ==> r.value == Resized(newSize, SaveFormatFor(outputPath)))
        && (!ResizeAccepts(size, newSize) ==> r == Failure(ResizeRefused))
        && (ResizeAccepts(size, newSize) && env.saveError(outputPath).Some? ==> r == Failure(env.saveError(outputPath).value))
  {
    if !env.hasPillow then
      match env.copyError(inputPath)
      case Some(e) => Failure(e)
      case None => Success(Copied)
    else
      match env.openImage(inputPath)
      case Failure(e) => Failure(e)
      case Success(size) =>
        var newSize := PillowSize(size, scale, targetWidth, targetHeight);
        if !ResizeAccepts(size, newSize) then Failure(ResizeRefused)
        else match env.saveError(outputPath)
          case Some(e) => Failure(e)
          case None => Success(Resized(newSize, SaveFormatFor(outputPath)))
  }

  /** The resize is refused exactly when the size changes and a side drops
      below 1: a target pair with a side below 1, or a scale so small that a
      side truncates to 0. A positive target pair, or a scale of at least 1
      on an image with both sides at least 1, is always accepted. */
  lemma ResizeRefusal(size: (nat, nat), scale: Option<real>, targetWidth: Option<int>, targetHeight: Option<int>)
    ensures var n := PillowSize(size, scale, targetWidth, targetHeight);
      !ResizeAccepts(size, n) <==> (n.0 != size.0 || n.1 != size.1) && (n.0 < 1 || n.1 < 1)
    ensures TruthyInt(targetWidth) && TruthyInt(targetHeight) && targetWidth.value >= 1 && targetHeight.value >= 1 ==>
      ResizeAccepts(size, PillowSize(size, scale, targetWidth, targetHeight))
    ensures (!(TruthyInt(targetWidth) && TruthyInt(targetHeight)) && size.0 >= 1 && size.1 >= 1
             && scale.Some? && scale.value >= 1.0) ==>
      ResizeAccepts(size, PillowSize(size, scale, targetWidth, targetHeight))
  {
    if !(TruthyInt(targetWidth) && TruthyInt(targetHeight)) && scale.Some? && scale.value >= 1.0 {
      PillowSizeGrows(size, scale);
      PillowSizeTargets(size, scale, targetWidth, targetHeight);
    }
  }

  /** A scale that shrinks a side below one pixel is refused: for a side of
      `w` pixels, any positive scale below `1 / w` truncates it to 0. */
  lemma ShrunkToNothing(w: nat, h: nat, scale: real)
    requires w >= 1 && h >= 1 && 0.0 < scale && w as real * scale < 1.0
    ensures PillowSize((w, h), Some(scale), None, None).0 == 0
    ensures !ResizeAccepts((w, h), PillowSize((w, h), Some(scale), None, None))
  {
  }

  /** Whether the command-line attempt of `upscale_image` succeeds: the scale
      is eligible, the tool is found and its command does not fail. */
  predicate CliSucceeds(inputPath: string, outputPath: string, scale: Option<real>, env: UpscalerEnv) {
    CliEligible(scale) && env.cliExe.Some?
    && !env.cliFails(CliCommand(env.cliExe.value, inputPath, outputPath, scale.value, env))
  }

  /** `upscale_image`: the tool when it succeeds, and Pillow otherwise; the
      tool's errors are swallowed, Pillow's propagate. */
  function UpscaleImage(inputPath: string, outputPath: string, scale: Option<real>,
                        targetWidth: Option<int>, targetHeight: Option<int>, env: UpscalerEnv): (r: Result<Upscaled, string>)
    ensures CliSucceeds(inputPath, outputPath, scale, env) ==>
      r == Success(ByCli(CliCommand(env.cliExe.value, inputPath, outputPath, scale.value, env)))
    ensures !CliSucceeds(inputPath, outputPath, scale, env) ==>
      r == UpscaleWithPillow(inputPath, outputPath, scale, targetWidth, targetHeight, env)
  {
    if CliEligible(scale) && env.cliExe.Some? then
      var cmd := CliCommand(env.cliExe.value, inputPath, outputPath, scale.value, env);
      if !env.cliFails(cmd) then Success(ByCli(cmd))
      else UpscaleWithPillow(inputPath, outputPath, scale, targetWidth, targetHeight, env)
    else
      UpscaleWithPillow(inputPath, outputPath, scale, targetWidth, targetHeight, env)
  }

  /** The tool is used exactly when its attempt succeeds. */
  lemma UpscaleUsesCli(inputPath: string, outputPath: string, scale: Option<real>,
                       targetWidth: Option<int>, targetHeight: Option<int>, env: UpscalerEnv)
    ensures var r := UpscaleImage(inputPath, outputPath, scale, targetWidth, targetHeight, env);
      (r.Success? && r.value.ByCli?) <==> CliSucceeds(inputPath, outputPath, scale, env)
  {
  }

  /** When the tool succeeds the target sizes play no part, although the
      docstring says that targets take precedence over the scale. */
  lemma CliIgnoresTargets(inputPath: string, outputPath: string, scale: Option<real>,
                          w1: Option<int>, h1: Option<int>, w2: Option<int>, h2: Option<int>, env: UpscalerEnv)
    requires CliSucceeds(inputPath, outputPath, scale, env)
    ensures UpscaleImage(inputPath, outputPath, scale, w1, h1, env) == UpscaleImage(inputPath, outputPath, scale, w2, h2, env)
  {
  }

  /** Without Pillow and without a successful tool run the input is copied
      unchanged; with Pillow the image is resized by the size rule and saved
      in the extension's format, and a refused resize or a failed save is
      the job's error. */
  lemma UpscaleFallback(inputPath: string, outputPath: string, scale: Option<real>,
                        targetWidth: Option<int>, targetHeight: Option<int>, env: UpscalerEnv)
    requires !CliSucceeds(inputPath, outputPath, scale, env)
    ensures var r := UpscaleImage(inputPath, outputPath, scale, targetWidth, targetHeight, env);
      (!env.hasPillow ==> (r.Success? <==> env.copyError(inputPath).None?) && (r.Success? ==> r.value == Copied))
      && (env.hasPillow && env.openImage(inputPath).Success? ==>
            var size := env.openImage(inputPath).value;
            var newSize := PillowSize(size, scale, targetWidth, targetHeight);
            (r.Success? <==> ResizeAccepts(size, newSize) && env.saveError(outputPath).None?)
            && (r.Success? ==> r.value == Resized(newSize, SaveFormatFor(outputPath)))
            && (!ResizeAccepts(size, newSize) ==> r == Failure(ResizeRefused)))
      && (env.hasPillow && env.openImage(inputPath).Failure? ==> r == Failure(env.openImage(inputPath).error))
  {
  }
}
