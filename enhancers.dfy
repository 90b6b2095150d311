/** Image enhancement (backend/app/services/enhancers.py): a dispatch on the
    normalised mode to a general, a face or a repair enhancer, each of which
    clamps its strength and runs a chain of Pillow operations. An enhancer is
    modelled by the list of operations it performs, or the error it raises. */
module Enhancers {
  import opened Wrappers
  import PyText
  import PyNum

  const PillowMissing: string := "Pillow is required for enhancement operations but is not installed"

  /** What the enhancers observe of the world. `hasPillow` stands for the
      whole `PIL` import, so `ImageFilter` is present exactly when `Image` is. */
  datatype EnhancerEnv = EnhancerEnv(
    hasPillow: bool,
    gfpgan: Option<string>,                 // shutil.which("gfpgan-ncnn-vulkan")
    gfpganFails: seq<string> -> bool,       // subprocess.run(cmd, check=True) raises
    openError: string -> Option<string>,    // Image.open on that path raises
    saveError: string -> Option<string>)    // img.save to that path raises

  /** One step of an enhancer. */
  datatype ImageOp =
    | External(cmd: seq<string>)
    | Open(path: string)
    | ConvertRgb
    | Contrast(factor: real)
    | Sharpness(factor: real)
    | Median(size: nat)
    | Smooth
    | SmoothMore
    | Save(path: string)

  /** `_ensure_pil_available`, then `Image.open` and `convert("RGB")`: the
      operations every Pillow chain starts with, or the error that stops it. */
  function PillowStart(inputPath: string, env: EnhancerEnv): Result<seq<ImageOp>, string> {
    if !env.hasPillow then Failure(PillowMissing)
    else match env.openError(inputPath)
      case Some(e) => Failure(e)
      case None => Success([Open(inputPath), ConvertRgb])
  }

  /** The closing `img.save(output_path)` of a Pillow chain: the chain with
      the save appended, or the error the save raises. */
  function SaveTo(ops: seq<ImageOp>, outputPath: string, env: EnhancerEnv): (r: Result<seq<ImageOp>, string>)
    ensures r.Success? <==> env.saveError(outputPath).None?
    ensures r.Success? ==> r.value == ops + [Save(outputPath)]
    ensures r.Failure? ==> r.error == env.saveError(outputPath).value
  {
    match env.saveError(outputPath)
    case Some(e) => Failure(e)
    case None => Success(ops + [Save(outputPath)])
  }

  /** `enhance_image_general`: contrast up to +50% and sharpness up to +200%
      of the clamped strength, then a 3-pixel median above 0.6. */
  function EnhanceGeneral(inputPath: string, outputPath: string, strength: real, env: EnhancerEnv): (r: Result<seq<ImageOp>, string>)
    ensures r.Success? ==>
      |r.value| >= 5 && r.value[2].Contrast? && 1.0 <= r.value[2].factor <= 1.5
      && r.value[3].Sharpness? && 1.0 <= r.value[3].factor <= 3.0
  {
    var start :- PillowStart(inputPath, env);
    var s := PyNum.Clamp01(strength);
    SaveTo(start + [Contrast(1.0 + 0.5 * s), Sharpness(1.0 + 2.0 * s)]
           + (if s > 0.6 then [Median(3)] else []), outputPath, env)
  }

  /** The command of the GFPGAN attempt in `enhance_image_face`. */
  function GfpganCommand(exe: string, inputPath: string, outputPath: string): seq<string> {
    [exe, "-i", inputPath, "-o", outputPath]
  }

  /** Whether the GFPGAN attempt succeeds: the tool is found (a non-empty
      path) and its command does not fail. */
  predicate GfpganSucceeds(inputPath: string, outputPath: string, env: EnhancerEnv) {
    TruthyStr(env.gfpgan) && !env.gfpganFails(GfpganCommand(env.gfpgan.value, inputPath, outputPath))
  }

  /** `enhance_image_face`: GFPGAN when it succeeds, otherwise a gentle
      Pillow chain with contrast up to +30% and sharpness up to +300%; the
      tool's error is swallowed. */
  function EnhanceFace(inputPath: string, outputPath: string, strength: real, env: EnhancerEnv): (r: Result<seq<ImageOp>, string>)
    ensures GfpganSucceeds(inputPath, outputPath, env) ==>
      r == Success([External(GfpganCommand(env.gfpgan.value, inputPath, outputPath))])
    ensures r.Success? && !GfpganSucceeds(inputPath, outputPath, env) ==>
      |r.value| == 6 && r.value[2].Contrast? && 1.0 <= r.value[2].factor <= 1.3
      && r.value[3].Sharpness? && 1.0 <= r.value[3].factor <= 4.0
  {
    if GfpganSucceeds(inputPath, outputPath, env) then
      Success([External(GfpganCommand(env.gfpgan.value, inputPath, outputPath))])
    else
      var start :- PillowStart(inputPath, env);
      var s := PyNum.Clamp01(strength);
      SaveTo(start + [Contrast(1.0 + 0.3 * s), Sharpness(1.0 + 3.0 * s), Smooth], outputPath, env)
  }

  /** The filters `repair_image` chooses for a clamped strength. */
  function RepairFilters(s: real): seq<ImageOp> {
    if s >= 0.75 then [Median(5), SmoothMore]
    else if s >= 0.4 then [Median(3), Smooth]
    else [Smooth]
  }

  /** `repair_image`: the filters of its tier, then sharpness up to +50%. */
  function RepairImage(inputPath: string, outputPath: string, strength: real, env: EnhancerEnv): (r: Result<seq<ImageOp>, string>)
    ensures r.Success? ==>
      |r.value| >= 5 && r.value[|r.value| - 2].Sharpness?
      && 1.0 <= r.value[|r.value| - 2].factor <= 1.5
  {
    var start :- PillowStart(inputPath, env);
    var s := PyNum.Clamp01(strength);
    SaveTo(start + RepairFilters(s) + [Sharpness(1.0 + 0.5 * s)], outputPath, env)
  }

  /** `(mode or "").strip().lower()`. */
  function NormaliseMode(mode: Option<string>): string {
    PyText.Lower(PyText.Strip(StrOr(mode, "")))
  }

  /** Normalising twice is normalising once. */
  lemma NormaliseModeIdempotent(mode: Option<string>)
    ensures NormaliseMode(Some(NormaliseMode(mode))) == NormaliseMode(mode)
  {
    var t := PyText.Strip(StrOr(mode, ""));
    var n := PyText.Lower(t);
    PyText.StripLowerCommute(t);
    PyText.StripIdempotent(t);
    PyText.LowerIdempotent(t);
    assert PyText.Strip(n) == n;
    if n == "" {
      assert StrOr(Some(n), "") == "";
    }
  }

  datatype Enhancer = General | Face | Repair

  const FaceModes: set<string> := {"face", "face_enhance", "face-enhance"}
  const RepairModes: set<string> := {"repair", "ai_repair", "ai-repair"}

  /** The branch `apply_enhancements` takes. */
  function SelectEnhancer(mode: Option<string>): (e: Enhancer)
    ensures e == Face <==> NormaliseMode(mode) in FaceModes
    ensures e == Repair <==> NormaliseMode(mode) in RepairModes
    ensures e == General <==> NormaliseMode(mode) !in FaceModes + RepairModes
  {
    var m := NormaliseMode(mode);
    if m in FaceModes then Face
    else if m in RepairModes then Repair
    else General
  }

  /** A missing or empty mode selects the general enhancer. */
  lemma SelectDefault()
    ensures SelectEnhancer(None) == General && SelectEnhancer(Some("")) == General
  {
    assert PyText.Strip("") == "";
    assert NormaliseMode(None) == "" && NormaliseMode(Some("")) == "";
  }

  /** The name "general" selects the general enhancer: it is its own
      normal form, and no face or repair mode has its length. */
  lemma SelectGeneralName()
    ensures SelectEnhancer(Some("general")) == General
  {
    var g := "general";
    PyText.StripTrimmed(g);
    assert |NormaliseMode(Some(g))| == 7;
  }

  /** The selection ignores letter case. */
  lemma SelectIgnoresCase(mode: string)
    ensures SelectEnhancer(Some(PyText.Lower(mode))) == SelectEnhancer(Some(mode))
  {
    PyText.StripLowerCommute(mode);
    PyText.LowerIdempotent(PyText.Strip(mode));
    if mode == "" {
      assert PyText.Lower(mode) == "";
    } else {
      assert PyText.Lower(mode) != "";
    }
  }

  /** Leading whitespace, including the Unicode spaces `strip()` removes,
      plays no part in the selection. */
  lemma SelectIgnoresSpace(ws: string, mode: string)
    requires forall i :: 0 <= i < |ws| ==> PyText.IsSpace(ws[i])
    ensures SelectEnhancer(Some(ws + mode)) == SelectEnhancer(Some(mode))
  {
    PyText.StripSpacePrefix(ws, mode);
  }

  /** `apply_enhancements`. */
  function ApplyEnhancements(inputPath: string, outputPath: string, mode: Option<string>, strength: real, env: EnhancerEnv): Result<seq<ImageOp>, string> {
    match SelectEnhancer(mode)
    case Face => EnhanceFace(inputPath, outputPath, strength, env)
    case Repair => RepairImage(inputPath, outputPath, strength, env)
    case General => EnhanceGeneral(inputPath, outputPath, strength, env)
  }

  /** Only the clamped strength matters: every enhancer behaves for `s` as
      for `max(0, min(1, s))`. */
  lemma StrengthIsClamped(inputPath: string, outputPath: string, mode: Option<string>, strength: real, env: EnhancerEnv)
    ensures ApplyEnhancements(inputPath, outputPath, mode, strength, env)
      == ApplyEnhancements(inputPath, outputPath, mode, PyNum.Clamp01(strength), env)
  {
    var c := PyNum.Clamp01(strength);
    PyNum.Clamp01Properties(strength, strength);
    assert PyNum.Clamp01(c) == c;
    assert EnhanceGeneral(inputPath, outputPath, strength, env) == EnhanceGeneral(inputPath, outputPath, c, env);
    assert EnhanceFace(inputPath, outputPath, strength, env) == EnhanceFace(inputPath, outputPath, c, env);
    assert RepairImage(inputPath, outputPath, strength, env) == RepairImage(inputPath, outputPath, c, env);
  }

  /** The general chain: contrast in [1, 1.5], sharpness in [1, 3], both
      growing with the strength, and a 3-pixel median filter exactly when the
      clamped strength exceeds 0.6. */
  lemma GeneralPlan(inputPath: string, outputPath: string, strength: real, env: EnhancerEnv)
    requires env.hasPillow && env.openError(inputPath).None? && env.saveError(outputPath).None?
    ensures var s := PyNum.Clamp01(strength);
      var r := EnhanceGeneral(inputPath, outputPath, strength, env);
      r.Success? && r.value[..4] == [Open(inputPath), ConvertRgb, Contrast(1.0 + 0.5 * s), Sharpness(1.0 + 2.0 * s)]
      && 1.0 <= 1.0 + 0.5 * s <= 1.5 && 1.0 <= 1.0 + 2.0 * s <= 3.0
      && (Median(3) in r.value <==> s > 0.6)
      && r.value[|r.value| - 1] == Save(outputPath)
  {
  }

  /** Stronger settings never give weaker contrast or sharpening: the
      strength decides neither success nor the error, and the contrast and
      sharpness steps of the general chain grow with it. */
  lemma GeneralMonotone(inputPath: string, outputPath: string, strength1: real, strength2: real, env: EnhancerEnv)
    requires strength1 <= strength2
    ensures var r1, r2 := EnhanceGeneral(inputPath, outputPath, strength1, env), EnhanceGeneral(inputPath, outputPath, strength2, env);
      && (r1.Success? <==> r2.Success?)
      && (r1.Failure? ==> r1 == r2)
      && (r1.Success? ==>
            r1.value[2].factor <= r2.value[2].factor && r1.value[3].factor <= r2.value[3].factor)
  {
    PyNum.Clamp01Properties(strength1, strength2);
  }

  /** The same for the face enhancer's Pillow chain; a GFPGAN success does
      not depend on the strength at all. */
  lemma FaceMonotone(inputPath: string, outputPath: string, strength1: real, strength2: real, env: EnhancerEnv)
    requires strength1 <= strength2
    ensures var r1, r2 := EnhanceFace(inputPath, outputPath, strength1, env), EnhanceFace(inputPath, outputPath, strength2, env);
      && (r1.Success? <==> r2.Success?)
      && ((r1.Failure? || GfpganSucceeds(inputPath, outputPath, env)) ==> r1 == r2)
      && (r1.Success? && !GfpganSucceeds(inputPath, outputPath, env) ==>
            r1.value[2].factor <= r2.value[2].factor && r1.value[3].factor <= r2.value[3].factor)
  {
    PyNum.Clamp01Properties(strength1, strength2);
  }

  /** The repair tiers: median 5 and SMOOTH_MORE from 0.75, median 3 and
      SMOOTH from 0.4, SMOOTH alone below; then sharpness 1 + 0.5s. */
  lemma RepairPlan(inputPath: string, outputPath: string, strength: real, env: EnhancerEnv)
    requires env.hasPillow && env.openError(inputPath).None? && env.saveError(outputPath).None?
    ensures var s := PyNum.Clamp01(strength);
      var r := RepairImage(inputPath, outputPath, strength, env);
      r.Success? && r.value[..2] == [Open(inputPath), ConvertRgb]
      && r.value[2..|r.value| - 2] == (if s >= 0.75 then [Median(5), SmoothMore]
                                       else if s >= 0.4 then [Median(3), Smooth] else [Smooth])
      && r.value[|r.value| - 2..] == [Sharpness(1.0 + 0.5 * s), Save(outputPath)]
      && 1.0 <= 1.0 + 0.5 * s <= 1.5
  {
    var s := PyNum.Clamp01(strength);
    var r := RepairImage(inputPath, outputPath, strength, env);
    assert r.value == [Open(inputPath), ConvertRgb] + RepairFilters(s) + [Sharpness(1.0 + 0.5 * s)] + [Save(outputPath)];
  }

  /** A successful GFPGAN run is all the face enhancer does: Pillow is
      neither needed nor touched. Otherwise the gentle Pillow chain runs. */
  lemma FacePlan(inputPath: string, outputPath: string, strength: real, env: EnhancerEnv)
    ensures var r := EnhanceFace(inputPath, outputPath, strength, env);
      var s := PyNum.Clamp01(strength);
      (GfpganSucceeds(inputPath, outputPath, env) ==>
         r == Success([External([env.gfpgan.value, "-i", inputPath, "-o", outputPath])]))
      && (!GfpganSucceeds(inputPath, outputPath, env) && env.hasPillow && env.openError(inputPath).None?
          && env.saveError(outputPath).None? ==>
         r == Success([Open(inputPath), ConvertRgb, Contrast(1.0 + 0.3 * s), Sharpness(1.0 + 3.0 * s), Smooth, Save(outputPath)]))
  {
    var s := PyNum.Clamp01(strength);
    if !GfpganSucceeds(inputPath, outputPath, env) && env.hasPillow && env.openError(inputPath).None? && env.saveError(outputPath).None? {
      assert PillowStart(inputPath, env) == Success([Open(inputPath), ConvertRgb]);
      assert [Open(inputPath), ConvertRgb] + [Contrast(1.0 + 0.3 * s), Sharpness(1.0 + 3.0 * s), Smooth] + [Save(outputPath)]
        == [Open(inputPath), ConvertRgb, Contrast(1.0 + 0.3 * s), Sharpness(1.0 + 3.0 * s), Smooth, Save(outputPath)];
    }
  }

  /** A failing save is the enhancer's error: once Pillow has opened the
      image, every Pillow chain raises the save's error, and so does the
      face enhancer when GFPGAN did not succeed. */
  lemma SaveErrorPropagates(inputPath: string, outputPath: string, mode: Option<string>, strength: real, env: EnhancerEnv)
    requires env.hasPillow && env.openError(inputPath).None? && env.saveError(outputPath).Some?
    ensures var e := env.saveError(outputPath).value;
      && EnhanceGeneral(inputPath, outputPath, strength, env) == Failure(e)
      && RepairImage(inputPath, outputPath, strength, env) == Failure(e)
      && (EnhanceFace(inputPath, outputPath, strength, env) == Failure(e) <==> !GfpganSucceeds(inputPath, outputPath, env))
      && (ApplyEnhancements(inputPath, outputPath, mode, strength, env).Failure?
          <==> SelectEnhancer(mode) != Face || !GfpganSucceeds(inputPath, outputPath, env))
  {
  }

  /** Without Pillow the general and repair enhancers raise the "Pillow is
      required" error; the face enhancer raises it only when GFPGAN did not
      succeed. */
  lemma PillowRequired(inputPath: string, outputPath: string, strength: real, env: EnhancerEnv)
    requires !env.hasPillow
    ensures EnhanceGeneral(inputPath, outputPath, strength, env) == Failure(PillowMissing)
    ensures RepairImage(inputPath, outputPath, strength, env) == Failure(PillowMissing)
    ensures EnhanceFace(inputPath, outputPath, strength, env).Failure?
      <==> !GfpganSucceeds(inputPath, outputPath, env)
    ensures !GfpganSucceeds(inputPath, outputPath, env) ==>
      EnhanceFace(inputPath, outputPath, strength, env) == Failure(PillowMissing)
  {
  }

  /** Every successful chain ends by writing the output path. */
  lemma EnhancementWritesOutput(inputPath: string, outputPath: string, mode: Option<string>, strength: real, env: EnhancerEnv)
    ensures var r := ApplyEnhancements(inputPath, outputPath, mode, strength, env);
      r.Success? ==>
        |r.value| > 0
        && (r.value[|r.value| - 1] == Save(outputPath)
            || r.value == [External(GfpganCommand(env.gfpgan.value, inputPath, outputPath))])
  {
  }
}
