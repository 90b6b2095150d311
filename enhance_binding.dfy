/** How the pipeline calls `apply_enhancements`. Both call sites in
    backend/app/services/pipeline.py pass the input, the output, the mode
    (`options.mode or "general"`) and the strength by keyword, all of which
    the enhancers declare. The pipeline sees a call only through the message
    it raises, if any; `EnhanceCall` is that message for the enhancers of
    backend/app/services/enhancers.py. */
module EnhanceBinding {
  import opened Wrappers
  import Enhancers
  import Pipeline

  /** The call `apply_enhancements(input_path=…, output_path=…, mode=…,
      strength=…)`: it raises exactly when the selected enhancer fails, with
      that enhancer's message. */
  function EnhanceCall(req: Pipeline.EnhanceRequest, env: Enhancers.EnhancerEnv): (raised: Option<string>)
    ensures var r := Enhancers.ApplyEnhancements(req.inputPath, req.outputPath, Some(req.mode), req.strength, env);
      && (raised.None? <==> r.Success?)
      && (raised.Some? ==> raised.value == r.error)
  {
    match Enhancers.ApplyEnhancements(req.inputPath, req.outputPath, Some(req.mode), req.strength, env)
    case Success(_) => None
    case Failure(e) => Some(e)
  }

  /** With the enhancers bound and Pillow missing, an image job that reaches
      its general or repair enhancement fails with the "Pillow is required"
      message, after the enhancement call; the pipeline's "general" default
      selects the same enhancer as the job's own mode. */
  lemma ImageJobWithoutPillow(inputPath: string, opts: Pipeline.ProcessOptions, env: Pipeline.Env,
                              eenv: Enhancers.EnhancerEnv)
    requires forall req :: env.enhance(req) == EnhanceCall(req, eenv)
    requires !eenv.hasPillow && !env.cancelled(Pipeline.Start)
    requires !(Pipeline.Upscaling(opts) && env.upscale(Pipeline.ImageUpscale(inputPath, opts, env)).Some?)
    requires Enhancers.SelectEnhancer(opts.mode) != Enhancers.Face
    ensures var run := Pipeline.ImageRun(inputPath, opts, env);
      && run.outcome == Failure(Enhancers.PillowMissing)
      && run.trace[|run.trace| - 1] == Pipeline.Enhance(Pipeline.ImageEnhance(inputPath, opts, env))
  {
    var ereq := Pipeline.ImageEnhance(inputPath, opts, env);
    Pipeline.EnhanceModeAgrees(opts);
    Enhancers.PillowRequired(ereq.inputPath, ereq.outputPath, ereq.strength, eenv);
    assert env.enhance(ereq) == Some(Enhancers.PillowMissing);
  }
}
