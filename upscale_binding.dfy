/** How the pipeline calls `upscale_image`. Both call sites in
    backend/app/services/pipeline.py pass the keyword `realesrgan_model`,
    which the signature of `upscale_image` (backend/app/services/image_upscaler.py)
    does not declare, so every call raises `TypeError` before the body runs.
    `AsWrittenCall` models that call; `CorrectedCall` models the call without
    the extra keyword. The pipeline sees a call only through the message it
    raises, if any. */
module UpscaleBinding {
  import opened Wrappers
  import ImageUpscaler

  /** The keyword arguments of an `upscale_image(...)` call site. */
  datatype UpscaleRequest = UpscaleRequest(
    inputPath: string,
    outputPath: string,
    scale: Option<real>,
    targetWidth: Option<int>,
    targetHeight: Option<int>,
    realesrganModel: Option<string>)

  /** The message of the `TypeError` Python raises for the extra keyword. */
  const UnexpectedModelKeyword: string := "upscale_image() got an unexpected keyword argument 'realesrgan_model'"

  /** The call as written: it never reaches the upscaler. */
  function AsWrittenCall(req: UpscaleRequest, env: ImageUpscaler.UpscalerEnv): (raised: Option<string>)
    ensures raised == Some(UnexpectedModelKeyword)
  {
    Some(UnexpectedModelKeyword)
  }

  /** The corrected call: `upscale_image` on the declared arguments, raising
      exactly when the upscaler fails, with its message. */
  function CorrectedCall(req: UpscaleRequest, env: ImageUpscaler.UpscalerEnv): (raised: Option<string>)
    ensures var u := ImageUpscaler.UpscaleImage(req.inputPath, req.outputPath, req.scale, req.targetWidth, req.targetHeight, env);
      && (raised.None? <==> u.Success?)
      && (raised.Some? ==> raised.value == u.error)
  {
    match ImageUpscaler.UpscaleImage(req.inputPath, req.outputPath, req.scale, req.targetWidth, req.targetHeight, env)
    case Success(_) => None
    case Failure(e) => Some(e)
  }

  /** As written, the call fails even where the upscaler itself would
      succeed, so the two bindings differ on every such request. */
  lemma AsWrittenDiffers(req: UpscaleRequest, env: ImageUpscaler.UpscalerEnv)
    requires ImageUpscaler.UpscaleImage(req.inputPath, req.outputPath, req.scale, req.targetWidth, req.targetHeight, env).Success?
    ensures AsWrittenCall(req, env) != CorrectedCall(req, env)
  {
  }

  /** Corrected, the model name plays no part, as `upscale_image` has no
      model parameter; the call succeeds whenever the tool's attempt does. */
  lemma CorrectedIgnoresModel(req: UpscaleRequest, model: Option<string>, env: ImageUpscaler.UpscalerEnv)
    ensures CorrectedCall(req, env) == CorrectedCall(req.(realesrganModel := model), env)
    ensures ImageUpscaler.CliSucceeds(req.inputPath, req.outputPath, req.scale, env) ==> CorrectedCall(req, env).None?
  {
  }
}
