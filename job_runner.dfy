/** The worker side of the job store (`_run_job` in
    backend/app/services/job_manager.py): mark the job running, run the
    pipeline, and record its result or its error. */
module JobRunner {
  import opened Wrappers
  import PyNum
  import PyPath
  import Jobs
  import opened Pipeline
  import PipelineLaws
  import UpscaleBinding
  import ImageUpscaler

  /** The pipeline run of the job that started as `r`. */
  function RunOf(r: Jobs.Record, env: Env): Run<string> {
    MediaRun(r.id, r.inputPath, r.mediaType, r.options, env)
  }

  /** The record of the job once it is marked running. */
  function Started(r: Jobs.Record): Jobs.Record {
    r.(status := Jobs.Running)
  }

  /** The record `_run_job` leaves: the progress the pipeline reported,
      then the result or the error. */
  function Settled(r: Jobs.Record, env: Env): Jobs.Record {
    var run := RunOf(r, env);
    Jobs.Finish(Jobs.AfterProgress(Started(r), ProgressValues(run.trace)), run.outcome)
  }

  /** The records `_run_job` publishes, in order: running, each progress
      update, the final record. */
  function Published(r: Jobs.Record, env: Env): seq<Jobs.Record> {
    [Started(r)] + Jobs.ProgressRecords(Started(r), ProgressValues(RunOf(r, env).trace)) + [Settled(r, env)]
  }

  /** `_run_job`: the pipeline run is `RunOf` the job, the job ends as
      `Settled`, and the store published exactly `Published`. */
  method RunJob(jm: Jobs.JobManager, job: Jobs.Job, env: Env) returns (run: Run<string>)
    modifies jm, job
    ensures run == RunOf(old(job.Snapshot()), env)
    ensures job.Snapshot() == Settled(old(job.Snapshot()), env)
    ensures jm.updates == old(jm.updates) + Published(old(job.Snapshot()), env)
    ensures jm.jobs == old(jm.jobs)[job.id := job]
    ensures old(jm.Valid()) ==> jm.Valid()
  {
    ghost var jobs0: map<string, Jobs.Job>, updates0 := jm.jobs, jm.updates;
    MarkRunning(jm, job);
    ghost var started, jobs1: map<string, Jobs.Job>, updates1 := job.Snapshot(), jm.jobs, jm.updates;
    run := ProcessMedia(job, jm, env);
    ghost var ps := ProgressValues(run.trace);
    ghost var jobs2: map<string, Jobs.Job>, updates2 := jm.jobs, jm.updates;
    Settle(jm, job, run.outcome);
    StoreSteps(jobs0, jobs1, jobs2, jm.jobs, job.id, job, updates0, updates1, updates2, jm.updates,
               started, Jobs.ProgressRecords(started, ps), job.Snapshot(), ps == []);
  }

  /** What the three publishing steps of `_run_job` add up to. */
  lemma StoreSteps(jobs0: map<string, Jobs.Job>, jobs1: map<string, Jobs.Job>, jobs2: map<string, Jobs.Job>,
                   jobs3: map<string, Jobs.Job>, id: string, job: Jobs.Job,
                   updates0: seq<Jobs.Record>, updates1: seq<Jobs.Record>, updates2: seq<Jobs.Record>,
                   updates3: seq<Jobs.Record>, started: Jobs.Record, progress: seq<Jobs.Record>,
                   final: Jobs.Record, quiet: bool)
    requires jobs1 == jobs0[id := job] && jobs2 == (if quiet then jobs1 else jobs1[id := job]) && jobs3 == jobs2[id := job]
    requires updates1 == updates0 + [started] && updates2 == updates1 + progress && updates3 == updates2 + [final]
    ensures jobs3 == jobs0[id := job]
    ensures updates3 == updates0 + ([started] + progress + [final])
  {
  }

  /** `job.status = RUNNING` followed by `_update_job`. */
  method MarkRunning(jm: Jobs.JobManager, job: Jobs.Job)
    modifies jm, job
    ensures job.Snapshot() == Started(old(job.Snapshot()))
    ensures jm.jobs == old(jm.jobs)[job.id := job] && jm.updates == old(jm.updates) + [job.Snapshot()]
    ensures old(jm.Valid()) ==> jm.Valid()
  {
    job.status := Jobs.Running;
    jm.UpdateJob(job);
  }

  /** The `try`/`except`/`finally` of `_run_job` once the pipeline returned
      or raised. */
  method Settle(jm: Jobs.JobManager, job: Jobs.Job, outcome: Result<string, string>)
    modifies jm, job
    ensures job.Snapshot() == Jobs.Finish(old(job.Snapshot()), outcome)
    ensures jm.jobs == old(jm.jobs)[job.id := job] && jm.updates == old(jm.updates) + [job.Snapshot()]
    ensures old(jm.Valid()) ==> jm.Valid()
  {
    match outcome {
      case Success(outputPath) =>
        job.outputPath := Some(outputPath);
        job.progress := 1.0;
        job.status := Jobs.Completed;
      case Failure(message) =>
        job.error := Some(message);
        job.status := Jobs.Failed;
    }
    jm.UpdateJob(job);
  }

  // ---------------------------------------------------------------------------
  // What a client polling the store sees

  /** A job ends COMPLETED exactly when the pipeline returned, with the
      output path it returned and full progress, and FAILED with the message
      otherwise; it can be downloaded exactly when it completed. */
  lemma SettledResult(r: Jobs.Record, env: Env)
    ensures var f, run := Settled(r, env), RunOf(r, env);
      && (f.status == Jobs.Completed <==> run.outcome.Success?)
      && (f.status == Jobs.Failed <==> run.outcome.Failure?)
      && (run.outcome.Success? ==> f.outputPath == Some(run.outcome.value) && f.progress == 1.0)
      && (run.outcome.Failure? ==> f.error == Some(run.outcome.error))
      && (Jobs.Serialize(f).downloadUrl.Some? <==> run.outcome.Success?)
  {
    var run := RunOf(r, env);
    var a := Jobs.AfterProgress(Started(r), ProgressValues(run.trace));
    Jobs.FinishedDownload(a, run.outcome);
    if run.outcome.Success? {
      PipelineLaws.MediaOutput(r.id, r.inputPath, r.mediaType, r.options, env);
    }
  }

  /** Every record published before the last one says RUNNING, and the last
      one COMPLETED or FAILED. */
  lemma PublishedStatuses(r: Jobs.Record, env: Env)
    ensures var p := Published(r, env);
      && |p| >= 2
      && (forall i :: 0 <= i < |p| - 1 ==> p[i].status == Jobs.Running)
      && (p[|p| - 1].status == Jobs.Completed || p[|p| - 1].status == Jobs.Failed)
  {
    var p := Published(r, env);
    var progress := Jobs.ProgressRecords(Started(r), ProgressValues(RunOf(r, env).trace));
    forall i | 0 <= i < |p| - 1 ensures p[i].status == Jobs.Running {
      if i > 0 {
        assert p[i] == progress[i - 1];
      }
    }
  }

  /** For a job that starts with progress of at most 0.1 (a new job has 0.0),
      the published progress never goes down. */
  lemma PublishedProgressRises(r: Jobs.Record, env: Env)
    requires 0.0 <= r.progress <= 0.1
    ensures var p := Published(r, env);
      forall i, j :: 0 <= i < j < |p| ==> p[i].progress <= p[j].progress
  {
    var run := RunOf(r, env);
    var ps := ProgressValues(run.trace);
    PipelineLaws.MediaProgress(r.id, r.inputPath, r.mediaType, r.options, env);
    FinalProgress(Started(r), ps, run.outcome);
    RecordsRise(Started(r), ps, Settled(r, env));
  }

  /** The final record's progress is at least every value reported before. */
  lemma FinalProgress(start: Jobs.Record, ps: seq<real>, outcome: Result<string, string>)
    requires PipelineLaws.Increasing(ps) && forall k :: 0 <= k < |ps| ==> 0.1 <= ps[k] <= 1.0
    requires start.progress <= 0.1
    ensures Jobs.Finish(Jobs.AfterProgress(start, ps), outcome).progress >= start.progress
    ensures var last := Jobs.Finish(Jobs.AfterProgress(start, ps), outcome).progress;
      forall k :: 0 <= k < |ps| ==> ps[k] <= last
  {
    if ps != [] {
      assert forall k :: 0 <= k < |ps| - 1 ==> ps[k] < ps[|ps| - 1];
    }
  }

  /** Published records whose progress values rise. */
  lemma RecordsRise(start: Jobs.Record, ps: seq<real>, final: Jobs.Record)
    requires PipelineLaws.Increasing(ps) && forall k :: 0 <= k < |ps| ==> 0.1 <= ps[k] <= 1.0
    requires start.progress <= 0.1 && start.progress <= final.progress
    requires forall k :: 0 <= k < |ps| ==> ps[k] <= final.progress
    ensures var p := [start] + Jobs.ProgressRecords(start, ps) + [final];
      forall i, j :: 0 <= i < j < |p| ==> p[i].progress <= p[j].progress
  {
    var progress := Jobs.ProgressRecords(start, ps);
    var p := [start] + progress + [final];
    assert forall k :: 0 <= k < |ps| ==> progress[k].progress == ps[k];
    forall i, j | 0 <= i < j < |p| ensures p[i].progress <= p[j].progress {
      if j == |p| - 1 {
        if i > 0 {
          assert p[i] == progress[i - 1];
        }
      } else if i > 0 {
        assert p[i] == progress[i - 1] && p[j] == progress[j - 1];
      } else {
        assert p[j] == progress[j - 1];
      }
    }
  }

  /** A job of any other media type fails at once with an "Unsupported
      media type" message and publishes nothing between RUNNING and FAILED. */
  lemma UnsupportedMedia(r: Jobs.Record, env: Env)
    requires r.mediaType != "image" && r.mediaType != "video"
    ensures Settled(r, env) == Started(r).(status := Jobs.Failed, error := Some("Unsupported media type: " + r.mediaType))
    ensures Published(r, env) == [Started(r), Settled(r, env)]
  {
    ProgressValuesEmpty();
  }

  /** With the call as written, an image job that asks for upscaling and is
      not cancelled ends FAILED with the `TypeError` message, having reported
      no progress. */
  lemma AsWrittenImageJobFails(r: Jobs.Record, env: Env, uenv: ImageUpscaler.UpscalerEnv)
    requires r.mediaType == "image" && Upscaling(FromDict(r.options)) && !env.cancelled(Start)
    requires forall req :: env.upscale(req) == UpscaleBinding.AsWrittenCall(req, uenv)
    ensures Settled(r, env).status == Jobs.Failed
    ensures Settled(r, env).error == Some(UpscaleBinding.UnexpectedModelKeyword)
    ensures Published(r, env) == [Started(r), Settled(r, env)]
  {
    var opts := FromDict(r.options);
    PipelineLaws.AsWrittenImageFails(r.inputPath, opts, env, uenv);
    ProgressValuesSingle(Upscale(ImageUpscale(r.inputPath, opts, env)));
  }
}
