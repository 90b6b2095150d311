/** What the pipeline's runs guarantee as a whole: the order in which frames
    are processed, when a video job can succeed, the progress schedule a
    client sees, and what the `realesrgan_model` keyword does to image and
    video jobs. */
module PipelineLaws {
  import opened Wrappers
  import PyPath
  import Ffmpeg
  import ImageUpscaler
  import Jobs
  import opened UpscaleBinding
  import opened Pipeline

  // ---------------------------------------------------------------------------
  // The frame loop

  /** A chain of steps succeeds exactly when every step does, and a failed
      chain fails with the outcome of its first failing step. */
  lemma {:induction false} ChainSucceedsIff(steps: seq<Run<()>>, k: nat)
    requires k <= |steps|
    ensures var r := Chain(steps, k);
      && (r.outcome.Success? <==> forall i :: k <= i < |steps| ==> steps[i].outcome.Success?)
      && (r.outcome.Failure? ==>
            exists j :: k <= j < |steps| && r.outcome == steps[j].outcome
              && forall i :: k <= i < j ==> steps[i].outcome.Success?)
    decreases |steps| - k
  {
    if k < |steps| && steps[k].outcome.Success? {
      ChainSucceedsIff(steps, k + 1);
      if Chain(steps, k).outcome.Failure? {
        var j :| k + 1 <= j < |steps| && Chain(steps, k + 1).outcome == steps[j].outcome
          && forall i :: k + 1 <= i < j ==> steps[i].outcome.Success?;
        assert forall i :: k <= i < j ==> steps[i].outcome.Success?;
      }
    }
  }

  /** The frame loop succeeds exactly when every one of its steps does, and
      a failed loop fails with the outcome of its first failing step. */
  lemma FramesSucceedIff(files: seq<string>, total: nat, processed: string, opts: ProcessOptions, env: Env)
    ensures var r := FramesRun(files, total, processed, opts, env);
      && (r.outcome.Success? <==>
            forall i :: 0 <= i < |files| ==> FrameStep(files[i], i, total, processed, opts, env).outcome.Success?)
      && (r.outcome.Failure? ==>
            exists j :: 0 <= j < |files| && r.outcome == FrameStep(files[j], j, total, processed, opts, env).outcome
              && forall i :: 0 <= i < j ==> FrameStep(files[i], i, total, processed, opts, env).outcome.Success?)
  {
    var steps := FrameSteps(files, total, processed, opts, env);
    ChainSucceedsIff(steps, 0);
    assert forall i :: 0 <= i < |files| ==> steps[i] == FrameStep(files[i], i, total, processed, opts, env);
  }

  /** A chain whose steps each upscale at most their own frame, and exactly
      it when they succeed, upscales the frames in order. */
  lemma {:induction false} ChainUpscaleOrder(steps: seq<Run<()>>, files: seq<string>, k: nat)
    requires |steps| == |files| && k <= |steps|
    requires forall i :: 0 <= i < |steps| ==>
      UpscaleInputs(steps[i].trace) <= [files[i]] && (steps[i].outcome.Success? ==> UpscaleInputs(steps[i].trace) == [files[i]])
    ensures UpscaleInputs(Chain(steps, k).trace) <= files[k..]
    ensures Chain(steps, k).outcome.Success? ==> UpscaleInputs(Chain(steps, k).trace) == files[k..]
    decreases |steps| - k
  {
    if k == |steps| {
      ProgressValuesEmpty();
      assert UpscaleInputs([]) == [];
    } else {
      assert files[k..] == [files[k]] + files[k + 1..];
      if steps[k].outcome.Failure? {
        assert UpscaleInputs(steps[k].trace) <= [files[k]];
      } else {
        var rest := Chain(steps, k + 1);
        ChainUpscaleOrder(steps, files, k + 1);
        UpscaleInputsAppend(steps[k].trace, rest.trace);
        assert UpscaleInputs(Chain(steps, k).trace) == [files[k]] + UpscaleInputs(rest.trace);
      }
    }
  }

  /** The upscaler sees the frames in the order they were listed, each at
      most once, and all of them when the loop succeeds. */
  lemma FramesUpscaleOrder(files: seq<string>, total: nat, processed: string, opts: ProcessOptions, env: Env)
    ensures var r := FramesRun(files, total, processed, opts, env);
      && UpscaleInputs(r.trace) <= files
      && (r.outcome.Success? ==> UpscaleInputs(r.trace) == files)
  {
    var steps := FrameSteps(files, total, processed, opts, env);
    forall i | 0 <= i < |steps|
      ensures UpscaleInputs(steps[i].trace) <= [files[i]]
      ensures steps[i].outcome.Success? ==> UpscaleInputs(steps[i].trace) == [files[i]]
    {
      FrameStepInputs(files[i], i, total, processed, opts, env);
    }
    ChainUpscaleOrder(steps, files, 0);
    assert files[0..] == files;
  }

  /** One step upscales its frame unless it was cancelled first. */
  lemma FrameStepInputs(frame: string, index: nat, total: nat, processed: string, opts: ProcessOptions, env: Env)
    ensures var s := FrameStep(frame, index, total, processed, opts, env);
      && UpscaleInputs(s.trace) == (if env.cancelled(BeforeFrame(index)) then [] else [frame])
      && (s.outcome.Success? ==> UpscaleInputs(s.trace) == [frame])
  {
    var s := FrameStep(frame, index, total, processed, opts, env);
    if !env.cancelled(BeforeFrame(index)) {
      var req := s.trace[0].upscale;
      UpscaleInputsSingle(Upscale(req));
      if |s.trace| > 1 {
        var ereq := s.trace[1].enhance;
        UpscaleInputsSnoc([Upscale(req)], Enhance(ereq));
        if |s.trace| > 2 {
          assert s.trace == [Upscale(req)] + [Enhance(ereq)] + [s.trace[2]];
          UpscaleInputsSnoc([Upscale(req)] + [Enhance(ereq)], s.trace[2]);
        } else {
          assert s.trace == [Upscale(req)] + [Enhance(ereq)];
        }
      } else {
        assert s.trace == [Upscale(req)];
      }
    }
  }

  // ---------------------------------------------------------------------------
  // Progress

  predicate Increasing(s: seq<real>) {
    forall i, j :: 0 <= i < j < |s| ==> s[i] < s[j]
  }

  /** Every value of `s` lies in `(lo, hi]`. */
  predicate Above(s: seq<real>, lo: real, hi: real) {
    forall i :: 0 <= i < |s| ==> lo < s[i] <= hi
  }

  /** The progress values of the frames `k` to `n - 1`, in order. */
  function FrameSchedule(k: nat, n: nat, total: nat): seq<real> {
    if total == 0 || n <= k then [] else seq(n - k, j requires 0 <= j < n - k => FrameFraction(k + j, total))
  }

  /** The frame fractions grow with the index, stay above 0.1, and reach at
      most 0.9 while the index is below the total. */
  lemma FractionBounds(i: nat, j: nat, total: nat)
    requires total > 0
    ensures 0.1 < FrameFraction(i, total)
    ensures i < j ==> FrameFraction(i, total) < FrameFraction(j, total)
    ensures i < total ==> FrameFraction(i, total) <= 0.9
  {
    var t := total as real;
    var a := (i + 1) as real / t;
    assert a * t == (i + 1) as real;
    assert a > 0.0;
    if i < j {
      var b := (j + 1) as real / t;
      assert b * t == (j + 1) as real;
      assert (b - a) * t == (j - i) as real;
      PositiveFactor(b - a, t);
    }
    if i < total {
      assert (1.0 - a) * t == (total - i - 1) as real;
      NonNegativeFactor(1.0 - a, t);
    }
  }

  lemma PositiveFactor(x: real, t: real)
    requires t > 0.0 && x * t > 0.0
    ensures x > 0.0
  {
  }

  lemma NonNegativeFactor(x: real, t: real)
    requires t > 0.0 && x * t >= 0.0
    ensures x >= 0.0
  {
  }

  lemma ScheduleCons(k: nat, n: nat, total: nat)
    requires k < n && total != 0
    ensures FrameSchedule(k, n, total) == [FrameFraction(k, total)] + FrameSchedule(k + 1, n, total)
  {
    var s := FrameSchedule(k, n, total);
    var t := FrameSchedule(k + 1, n, total);
    assert |s| == 1 + |t|;
    forall j | 0 <= j < |s| ensures s[j] == ([FrameFraction(k, total)] + t)[j] {
      if j > 0 {
        assert t[j - 1] == FrameFraction(k + 1 + (j - 1), total);
      }
    }
  }

  /** The schedule of a loop over at most `total` frames rises strictly
      within `(0.1, 0.9]`. */
  lemma ScheduleIncreasing(k: nat, n: nat, total: nat)
    requires total == 0 || n <= total
    ensures Increasing(FrameSchedule(k, n, total)) && Above(FrameSchedule(k, n, total), 0.1, 0.9)
  {
    var s := FrameSchedule(k, n, total);
    if total != 0 && k < n {
      forall i, j | 0 <= i < j < |s| ensures s[i] < s[j] {
        FractionBounds(k + i, k + j, total);
      }
      forall i | 0 <= i < |s| ensures 0.1 < s[i] <= 0.9 {
        FractionBounds(k + i, k + i, total);
      }
    }
  }

  /** One step reports the frame's fraction when it succeeds and anything is
      expected, and nothing otherwise. */
  lemma FrameStepProgress(frame: string, index: nat, total: nat, processed: string, opts: ProcessOptions, env: Env)
    ensures var s := FrameStep(frame, index, total, processed, opts, env);
      ProgressValues(s.trace) == (if s.outcome.Success? && total != 0 then [FrameFraction(index, total)] else [])
  {
    var s := FrameStep(frame, index, total, processed, opts, env);
    if !env.cancelled(BeforeFrame(index)) {
      var req := s.trace[0].upscale;
      ProgressValuesSingle(Upscale(req));
      if |s.trace| > 1 {
        var ereq := s.trace[1].enhance;
        ProgressValuesSnoc([Upscale(req)], Enhance(ereq));
        if |s.trace| > 2 {
          assert s.trace == [Upscale(req)] + [Enhance(ereq)] + [s.trace[2]];
          ProgressValuesSnoc([Upscale(req)] + [Enhance(ereq)], s.trace[2]);
        } else {
          assert s.trace == [Upscale(req)] + [Enhance(ereq)];
        }
      } else {
        assert s.trace == [Upscale(req)];
      }
    } else {
      ProgressValuesEmpty();
    }
  }

  /** A chain whose steps report their fraction when they succeed reports a
      prefix of the schedule, all of it when it succeeds. */
  lemma {:induction false} ChainProgress(steps: seq<Run<()>>, k: nat, total: nat)
    requires k <= |steps|
    requires forall i :: 0 <= i < |steps| ==>
      ProgressValues(steps[i].trace) == if steps[i].outcome.Success? && total != 0 then [FrameFraction(i, total)] else []
    ensures ProgressValues(Chain(steps, k).trace) <= FrameSchedule(k, |steps|, total)
    ensures Chain(steps, k).outcome.Success? ==> ProgressValues(Chain(steps, k).trace) == FrameSchedule(k, |steps|, total)
    decreases |steps| - k
  {
    if k == |steps| {
      ProgressValuesEmpty();
    } else {
      var ps := ProgressValues(steps[k].trace);
      if total != 0 {
        ScheduleCons(k, |steps|, total);
      }
      if steps[k].outcome.Success? {
        var rest := Chain(steps, k + 1);
        ChainProgress(steps, k + 1, total);
        ProgressValuesAppend(steps[k].trace, rest.trace);
        assert ProgressValues(Chain(steps, k).trace) == ps + ProgressValues(rest.trace);
      }
    }
  }

  /** The frame loop reports a prefix of the schedule, all of it when it
      succeeds. */
  lemma FramesProgress(files: seq<string>, total: nat, processed: string, opts: ProcessOptions, env: Env)
    ensures var r := FramesRun(files, total, processed, opts, env);
      && ProgressValues(r.trace) <= FrameSchedule(0, |files|, total)
      && (r.outcome.Success? ==> ProgressValues(r.trace) == FrameSchedule(0, |files|, total))
  {
    var steps := FrameSteps(files, total, processed, opts, env);
    forall i | 0 <= i < |steps|
      ensures ProgressValues(steps[i].trace) == if steps[i].outcome.Success? && total != 0 then [FrameFraction(i, total)] else []
    {
      FrameStepProgress(files[i], i, total, processed, opts, env);
    }
    ChainProgress(steps, 0, total);
  }

  lemma PrefixKeeps(a: seq<real>, b: seq<real>, lo: real, hi: real)
    requires a <= b && Increasing(b) && Above(b, lo, hi)
    ensures Increasing(a) && Above(a, lo, hi)
  {
    assert forall i :: 0 <= i < |a| ==> a[i] == b[i];
  }

  /** Two rising runs, the second above everything in the first, rise
      together. */
  lemma IncreasingConcat(a: seq<real>, b: seq<real>, lo: real, m: real, hi: real)
    requires Increasing(a) && Above(a, lo, m) && Increasing(b) && Above(b, m, hi)
    ensures Increasing(a + b)
  {
    var s := a + b;
    forall i, j | 0 <= i < j < |s| ensures s[i] < s[j] {
      if j < |a| {
        assert s[i] == a[i] && s[j] == a[j];
      } else if i >= |a| {
        assert s[i] == b[i - |a|] && s[j] == b[j - |a|];
      } else {
        assert s[i] == a[i] && s[j] == b[j - |a|];
      }
    }
  }

  /** Extraction reports 0.1 once, when it succeeds. */
  lemma ExtractProgress(id: string, inputPath: string, env: Env)
    ensures var ex := ExtractStage(id, inputPath, env);
      ProgressValues(ex.trace) == if ex.outcome.Success? then [0.1] else []
  {
    ProgressValuesEmpty();
    if Ffmpeg.FfmpegAvailable(env.hasFfmpeg, env.hasFfprobe) && !env.cancelled(Start) {
      var jobDir := PyPath.Join(env.framesRoot, id);
      var probe := RunProbe(Ffmpeg.ProbeCommand(inputPath));
      var extract := RunExtract(Ffmpeg.ExtractCommand(inputPath, jobDir));
      ProgressValuesSingle(probe);
      ProgressValuesSnoc([probe], extract);
      var t := [probe] + [extract];
      if env.extractError.None? {
        var audio := RunAudio(Ffmpeg.AudioCommand(inputPath, PyPath.Join(jobDir, "audio.aac")));
        ProgressValuesSnoc(t, audio);
        ProgressValuesSnoc(t + [audio], Progress(0.1));
        assert ExtractStage(id, inputPath, env).trace == t + [audio] + [Progress(0.1)];
      } else {
        assert ExtractStage(id, inputPath, env).trace == t;
      }
    }
  }

  /** Assembly reports 0.98 and then 1.0 when it succeeds, and nothing
      otherwise. */
  lemma AssembleProgress(inputPath: string, opts: ProcessOptions, env: Env, x: Extracted, processed: string)
    ensures var a := AssembleStage(inputPath, opts, env, x, processed);
      ProgressValues(a.trace) == if a.outcome.Success? then [0.98, 1.0] else []
  {
    var a := AssembleStage(inputPath, opts, env, x, processed);
    ProgressValuesEmpty();
    if |a.trace| > 0 {
      var cmd := [a.trace[0]];
      ProgressValuesSingle(a.trace[0]);
      if |a.trace| > 1 {
        var finish := [Progress(0.98), RemoveRaw(PyPath.Join(x.jobDir, "raw")), Progress(1.0)];
        assert a.trace == cmd + finish;
        FinishProgress(x.jobDir);
        ProgressValuesAppend(cmd, finish);
      } else {
        assert a.trace == cmd;
      }
    }
  }

  lemma FinishProgress(jobDir: string)
    ensures ProgressValues([Progress(0.98), RemoveRaw(PyPath.Join(jobDir, "raw")), Progress(1.0)]) == [0.98, 1.0]
  {
    var e0, e1, e2 := Progress(0.98), RemoveRaw(PyPath.Join(jobDir, "raw")), Progress(1.0);
    ProgressValuesSingle(e0);
    ProgressValuesSnoc([e0], e1);
    ProgressValuesSnoc([e0] + [e1], e2);
    assert [e0, e1, e2] == [e0] + [e1] + [e2];
  }

  lemma FinishRises(s: seq<real>)
    requires s == [] || s == [0.98, 1.0]
    ensures Increasing(s) && Above(s, 0.9, 1.0)
  {
  }

  /** After extraction, a video job reports rising values in `(0.1, 1.0]`,
      ending at 1.0 when it succeeds. */
  lemma FramesAndAssembleProgress(inputPath: string, opts: ProcessOptions, env: Env, x: Extracted)
    ensures var r := FramesAndAssemble(inputPath, opts, env, x);
      var ps := ProgressValues(r.trace);
      && Increasing(ps) && Above(ps, 0.1, 1.0)
      && (r.outcome.Success? ==> ps != [] && ps[|ps| - 1] == 1.0)
  {
    var files := VideoFiles(x.jobDir, env);
    var processed := PyPath.Join(x.jobDir, "processed");
    var total := TotalFrames(x.count, |files|);
    var frames := FramesRun(files, total, processed, opts, env);
    var sched := FrameSchedule(0, |files|, total);
    FramesProgress(files, total, processed, opts, env);
    ScheduleIncreasing(0, |files|, total);
    var fps := ProgressValues(frames.trace);
    PrefixKeeps(fps, sched, 0.1, 0.9);
    if frames.outcome.Success? {
      var a := AssembleStage(inputPath, opts, env, x, processed);
      AssembleProgress(inputPath, opts, env, x, processed);
      ThenProgress(frames.trace, a);
      assert FramesAndAssemble(inputPath, opts, env, x) == Then(frames.trace, a);
    }
  }

  /** The frame values in `(0.1, 0.9]` followed by the assembly's values
      rise and, when the assembly succeeds, end at 1.0. */
  lemma ThenProgress(t: seq<Event>, a: Run<string>)
    requires Increasing(ProgressValues(t)) && Above(ProgressValues(t), 0.1, 0.9)
    requires ProgressValues(a.trace) == if a.outcome.Success? then [0.98, 1.0] else []
    ensures var ps := ProgressValues(Then(t, a).trace);
      && Increasing(ps) && Above(ps, 0.1, 1.0)
      && (a.outcome.Success? ==> ps != [] && ps[|ps| - 1] == 1.0)
  {
    var fps := ProgressValues(t);
    var aps := ProgressValues(a.trace);
    ProgressValuesAppend(t, a.trace);
    FinishRises(aps);
    IncreasingConcat(fps, aps, 0.1, 0.9, 1.0);
  }

  /** A video job reports rising values in `[0.1, 1.0]`, starting at 0.1 and
      ending at 1.0 when it succeeds. */
  lemma VideoProgress(id: string, inputPath: string, opts: ProcessOptions, env: Env)
    ensures var r := VideoRun(id, inputPath, opts, env);
      var ps := ProgressValues(r.trace);
      && Increasing(ps) && (forall i :: 0 <= i < |ps| ==> 0.1 <= ps[i] <= 1.0)
      && (r.outcome.Success? ==> ps != [] && ps[0] == 0.1 && ps[|ps| - 1] == 1.0)
  {
    var ex := ExtractStage(id, inputPath, env);
    ExtractProgress(id, inputPath, env);
    if ex.outcome.Success? {
      var rest := FramesAndAssemble(inputPath, opts, env, ex.outcome.value);
      FramesAndAssembleProgress(inputPath, opts, env, ex.outcome.value);
      ExtractThenProgress(ex.trace, rest);
      assert VideoRun(id, inputPath, opts, env) == Then(ex.trace, rest);
    }
  }

  /** The extraction's 0.1 followed by rising values in `(0.1, 1.0]` rise,
      start at 0.1 and, on success, end at 1.0. */
  lemma ExtractThenProgress(t: seq<Event>, rest: Run<string>)
    requires ProgressValues(t) == [0.1]
    requires var rps := ProgressValues(rest.trace);
      Increasing(rps) && Above(rps, 0.1, 1.0) && (rest.outcome.Success? ==> rps != [] && rps[|rps| - 1] == 1.0)
    ensures var ps := ProgressValues(Then(t, rest).trace);
      && Increasing(ps) && (forall i :: 0 <= i < |ps| ==> 0.1 <= ps[i] <= 1.0)
      && (rest.outcome.Success? ==> ps != [] && ps[0] == 0.1 && ps[|ps| - 1] == 1.0)
  {
    var rps := ProgressValues(rest.trace);
    ProgressValuesAppend(t, rest.trace);
    IncreasingConcat([0.1], rps, 0.0, 0.1, 1.0);
    assert ProgressValues(Then(t, rest).trace) == [0.1] + rps;
  }

  // ---------------------------------------------------------------------------
  // What a successful video job went through

  lemma {:induction false} UpscaleInputsNone(t: seq<Event>)
    requires forall i :: 0 <= i < |t| ==> !t[i].Upscale?
    ensures UpscaleInputs(t) == []
    decreases |t|
  {
    if t != [] {
      UpscaleInputsNone(t[..|t| - 1]);
    }
  }

  /** A video job that succeeds found ffmpeg, extracted its frames, was never
      cancelled at any of the checks it passed, assembled its output, and
      upscaled exactly the listed frames, in order. */
  lemma VideoSuccess(id: string, inputPath: string, opts: ProcessOptions, env: Env)
    requires VideoRun(id, inputPath, opts, env).outcome.Success?
    ensures var files := VideoFiles(PyPath.Join(env.framesRoot, id), env);
      && Ffmpeg.FfmpegAvailable(env.hasFfmpeg, env.hasFfprobe) && env.extractError.None? && env.assembleError.None?
      && !env.cancelled(Start) && !env.cancelled(BeforeAssemble)
      && (forall i :: 0 <= i < |files| ==> !env.cancelled(BeforeFrame(i)))
      && UpscaleInputs(VideoRun(id, inputPath, opts, env).trace) == files
  {
    var ex := ExtractStage(id, inputPath, env);
    ExtractSuccess(id, inputPath, env);
    var x := ex.outcome.value;
    var rest := FramesAndAssemble(inputPath, opts, env, x);
    assert VideoRun(id, inputPath, opts, env) == Then(ex.trace, rest);
    FramesAndAssembleSuccess(inputPath, opts, env, x);
    UpscaleInputsAppend(ex.trace, rest.trace);
  }

  /** Extraction succeeds only with ffmpeg present, no cancellation and no
      extraction error, and upscales nothing. */
  lemma ExtractSuccess(id: string, inputPath: string, env: Env)
    requires ExtractStage(id, inputPath, env).outcome.Success?
    ensures var ex := ExtractStage(id, inputPath, env);
      && Ffmpeg.FfmpegAvailable(env.hasFfmpeg, env.hasFfprobe) && !env.cancelled(Start) && env.extractError.None?
      && ex.outcome.value.jobDir == PyPath.Join(env.framesRoot, id)
      && UpscaleInputs(ex.trace) == []
  {
    assert Ffmpeg.FfmpegAvailable(env.hasFfmpeg, env.hasFfprobe);
    assert !env.cancelled(Start) && env.extractError.None?;
    ExtractTrace(id, inputPath, env);
  }

  /** A successful extraction probes, extracts frames and audio, and reports
      0.1, with no upscale among them. */
  lemma ExtractTrace(id: string, inputPath: string, env: Env)
    requires Ffmpeg.FfmpegAvailable(env.hasFfmpeg, env.hasFfprobe) && !env.cancelled(Start) && env.extractError.None?
    ensures UpscaleInputs(ExtractStage(id, inputPath, env).trace) == []
  {
    var jobDir := PyPath.Join(env.framesRoot, id);
    var probe := RunProbe(Ffmpeg.ProbeCommand(inputPath));
    var extract := RunExtract(Ffmpeg.ExtractCommand(inputPath, jobDir));
    var audio := RunAudio(Ffmpeg.AudioCommand(inputPath, PyPath.Join(jobDir, "audio.aac")));
    assert ExtractStage(id, inputPath, env).trace == [probe] + [extract] + [audio] + [Progress(0.1)];
    UpscaleInputsSingle(probe);
    UpscaleInputsSnoc([probe], extract);
    UpscaleInputsSnoc([probe] + [extract], audio);
    UpscaleInputsSnoc([probe] + [extract] + [audio], Progress(0.1));
  }

  /** After extraction, success means no cancellation at any frame or before
      assembly, no assembly error, and exactly the listed frames upscaled. */
  lemma FramesAndAssembleSuccess(inputPath: string, opts: ProcessOptions, env: Env, x: Extracted)
    requires FramesAndAssemble(inputPath, opts, env, x).outcome.Success?
    ensures var files := VideoFiles(x.jobDir, env);
      && env.assembleError.None? && !env.cancelled(BeforeAssemble)
      && (forall i :: 0 <= i < |files| ==> !env.cancelled(BeforeFrame(i)))
      && UpscaleInputs(FramesAndAssemble(inputPath, opts, env, x).trace) == files
  {
    var files := VideoFiles(x.jobDir, env);
    var processed := PyPath.Join(x.jobDir, "processed");
    var total := TotalFrames(x.count, |files|);
    var frames := FramesRun(files, total, processed, opts, env);
    var a := AssembleStage(inputPath, opts, env, x, processed);
    assert FramesAndAssemble(inputPath, opts, env, x) == Then(frames.trace, a);
    FramesSucceedIff(files, total, processed, opts, env);
    forall i | 0 <= i < |files| ensures !env.cancelled(BeforeFrame(i)) {
      assert FrameStep(files[i], i, total, processed, opts, env).outcome.Success?;
    }
    FramesUpscaleOrder(files, total, processed, opts, env);
    AssembleUpscalesNothing(inputPath, opts, env, x, processed);
    UpscaleInputsAppend(frames.trace, a.trace);
    assert files[0..] == files;
  }

  lemma AssembleUpscalesNothing(inputPath: string, opts: ProcessOptions, env: Env, x: Extracted, processed: string)
    ensures UpscaleInputs(AssembleStage(inputPath, opts, env, x, processed).trace) == []
  {
    var t := AssembleStage(inputPath, opts, env, x, processed).trace;
    if t != [] {
      var finish := [Progress(0.98), RemoveRaw(PyPath.Join(x.jobDir, "raw")), Progress(1.0)];
      assert t == [t[0]] || t == [t[0]] + finish;
      assert !t[0].Upscale?;
    }
    UpscaleInputsNone(t);
  }

  // ---------------------------------------------------------------------------
  // The `realesrgan_model` keyword

  /** With the call as written, an image job that asks for upscaling and is
      not cancelled fails at its first step with the `TypeError` message. */
  lemma AsWrittenImageFails(inputPath: string, opts: ProcessOptions, env: Env, uenv: ImageUpscaler.UpscalerEnv)
    requires forall req :: env.upscale(req) == AsWrittenCall(req, uenv)
    requires Upscaling(opts) && !env.cancelled(Start)
    ensures ImageRun(inputPath, opts, env) == Run(Failure(UnexpectedModelKeyword), [Upscale(ImageUpscale(inputPath, opts, env))])
  {
    assert env.upscale(ImageUpscale(inputPath, opts, env)) == Some(UnexpectedModelKeyword);
  }

  /** With the call as written, a video job succeeds only when there are no
      frames to process; with frames and no cancellation before the first,
      it fails with the `TypeError` message. */
  lemma AsWrittenVideoFails(id: string, inputPath: string, opts: ProcessOptions, env: Env, uenv: ImageUpscaler.UpscalerEnv)
    requires forall req :: env.upscale(req) == AsWrittenCall(req, uenv)
    ensures var r := VideoRun(id, inputPath, opts, env);
      var files := VideoFiles(PyPath.Join(env.framesRoot, id), env);
      && (r.outcome.Success? ==> files == [])
      && (ExtractStage(id, inputPath, env).outcome.Success? && files != [] && !env.cancelled(BeforeFrame(0)) ==>
            r.outcome == Failure(UnexpectedModelKeyword))
  {
    var ex := ExtractStage(id, inputPath, env);
    if ex.outcome.Success? {
      var x := ex.outcome.value;
      var files := VideoFiles(x.jobDir, env);
      if files != [] {
        var processed := PyPath.Join(x.jobDir, "processed");
        var total := TotalFrames(x.count, |files|);
        var step := FrameStep(files[0], 0, total, processed, opts, env);
        FirstFrameFails(files[0], total, processed, opts, env, uenv);
        var frames := FramesRun(files, total, processed, opts, env);
        if env.cancelled(BeforeFrame(0)) {
          assert frames.outcome == Failure(Cancelled);
        } else {
          assert frames.outcome == Failure(UnexpectedModelKeyword);
        }
        assert FramesAndAssemble(inputPath, opts, env, x).outcome == Failure(frames.outcome.error);
      }
    }
  }

  lemma FirstFrameFails(frame: string, total: nat, processed: string, opts: ProcessOptions, env: Env,
                        uenv: ImageUpscaler.UpscalerEnv)
    requires forall req :: env.upscale(req) == AsWrittenCall(req, uenv)
    ensures var s := FrameStep(frame, 0, total, processed, opts, env);
      s.outcome == Failure(if env.cancelled(BeforeFrame(0)) then Cancelled else UnexpectedModelKeyword)
  {
    var base := PyPath.Basename(frame);
    var req := UpscaleRequest(frame, PyPath.Join(processed, "tmp_" + base), opts.scale, opts.targetWidth,
                              opts.targetHeight, opts.realesrganModel);
    assert env.upscale(req) == Some(UnexpectedModelKeyword);
  }

  /** With the corrected call, an image job that is not cancelled, whose
      upscaling (if any) the upscaler manages and whose enhancement succeeds,
      completes with its output path. */
  lemma CorrectedImageSucceeds(inputPath: string, opts: ProcessOptions, env: Env, uenv: ImageUpscaler.UpscalerEnv)
    requires forall req :: env.upscale(req) == CorrectedCall(req, uenv)
    requires !env.cancelled(Start)
    requires Upscaling(opts) ==>
      ImageUpscaler.UpscaleImage(inputPath, ImageTempPath(inputPath, opts, env), opts.scale, opts.targetWidth,
                                 opts.targetHeight, uenv).Success?
    requires env.enhance(ImageEnhance(inputPath, opts, env)).None?
    ensures ImageRun(inputPath, opts, env).outcome == Success(ImageOutputPath(inputPath, opts, env))
  {
    var req := ImageUpscale(inputPath, opts, env);
    assert env.upscale(req) == CorrectedCall(req, uenv);
  }

  // ---------------------------------------------------------------------------
  // Any job

  /** Whatever the media type, a job reports rising values in `[0.1, 1.0]`,
      the last of them 1.0 when it succeeds. */
  lemma MediaProgress(id: string, inputPath: string, mediaType: string, options: Jobs.Options, env: Env)
    ensures var r := MediaRun(id, inputPath, mediaType, options, env);
      var ps := ProgressValues(r.trace);
      && Increasing(ps) && (forall i :: 0 <= i < |ps| ==> 0.1 <= ps[i] <= 1.0)
      && (r.outcome.Success? ==> ps != [] && ps[|ps| - 1] == 1.0)
  {
    var opts := FromDict(options);
    if mediaType == "image" {
      ImageProgress(inputPath, opts, env);
    } else if mediaType == "video" {
      VideoProgress(id, inputPath, opts, env);
    } else {
      ProgressValuesEmpty();
    }
  }

  /** A job that succeeds returns its output path, which is never empty. */
  lemma MediaOutput(id: string, inputPath: string, mediaType: string, options: Jobs.Options, env: Env)
    requires MediaRun(id, inputPath, mediaType, options, env).outcome.Success?
    ensures var opts := FromDict(options);
      var out := MediaRun(id, inputPath, mediaType, options, env).outcome.value;
      && out == (if mediaType == "image" then ImageOutputPath(inputPath, opts, env) else VideoOutputPath(inputPath, opts, env))
      && out != ""
  {
    var opts := FromDict(options);
    if mediaType == "image" {
      ImageProgress(inputPath, opts, env);
      JoinNonEmpty(env.outputDir, OutputName(BaseName(inputPath), Suffix(opts.mode, "upscaled"),
                                             OutputFormat(opts.format, "png", ImageFormats)));
    } else {
      var ex := ExtractStage(id, inputPath, env);
      assert VideoRun(id, inputPath, opts, env) == Then(ex.trace, FramesAndAssemble(inputPath, opts, env, ex.outcome.value));
      FramesAndAssembleOutput(inputPath, opts, env, ex.outcome.value);
      JoinNonEmpty(env.outputDir, OutputName(BaseName(inputPath), Suffix(opts.mode, "enhanced"),
                                             OutputFormat(opts.format, "mp4", VideoFormats)));
    }
  }

  lemma FramesAndAssembleOutput(inputPath: string, opts: ProcessOptions, env: Env, x: Extracted)
    requires FramesAndAssemble(inputPath, opts, env, x).outcome.Success?
    ensures FramesAndAssemble(inputPath, opts, env, x).outcome.value == VideoOutputPath(inputPath, opts, env)
  {
    var files := VideoFiles(x.jobDir, env);
    var processed := PyPath.Join(x.jobDir, "processed");
    var frames := FramesRun(files, TotalFrames(x.count, |files|), processed, opts, env);
    assert FramesAndAssemble(inputPath, opts, env, x) == Then(frames.trace, AssembleStage(inputPath, opts, env, x, processed));
  }

  lemma JoinNonEmpty(dir: string, name: string)
    requires name != ""
    ensures PyPath.Join(dir, name) != ""
  {
  }

  /** `ffmpeg_available` gates a video job: without either tool the job
      fails with its message before doing anything, even before the cancel
      check; with both tools and no cancellation, probing the frame rate is
      the first thing it does. */
  lemma FfmpegGate(id: string, inputPath: string, opts: ProcessOptions, env: Env)
    ensures !Ffmpeg.FfmpegAvailable(env.hasFfmpeg, env.hasFfprobe) ==>
      VideoRun(id, inputPath, opts, env) == Run(Failure(FfmpegMissing), [])
    ensures Ffmpeg.FfmpegAvailable(env.hasFfmpeg, env.hasFfprobe) && !env.cancelled(Start) ==>
      var t := VideoRun(id, inputPath, opts, env).trace;
      |t| > 0 && t[0] == RunProbe(Ffmpeg.ProbeCommand(inputPath))
  {
    var ex := ExtractStage(id, inputPath, env);
    if Ffmpeg.FfmpegAvailable(env.hasFfmpeg, env.hasFfprobe) && !env.cancelled(Start) && ex.outcome.Success? {
      var rest := FramesAndAssemble(inputPath, opts, env, ex.outcome.value);
      assert VideoRun(id, inputPath, opts, env).trace == ex.trace + rest.trace;
      assert (ex.trace + rest.trace)[0] == ex.trace[0];
    }
  }
}
