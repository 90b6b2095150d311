/** The job store (backend/app/services/job_manager.py): a job record with a
    four-state status, and a manager holding a dictionary from id to job that
    publishes a job whenever its record changes. */
module Jobs {
  import opened Wrappers
  import PyNum
  import PyPath

  datatype JobStatus = Pending | Running | Completed | Failed

  /** The enum's string value. */
  function StatusValue(s: JobStatus): (v: string)
    ensures v in {"PENDING", "RUNNING", "COMPLETED", "FAILED"}
  {
    match s
    case Pending => "PENDING"
    case Running => "RUNNING"
    case Completed => "COMPLETED"
    case Failed => "FAILED"
  }

  /** `JobStatus(v)`: the member with that value, if any. */
  function ParseStatus(v: string): (s: Option<JobStatus>)
    ensures s.Some? <==> v in {"PENDING", "RUNNING", "COMPLETED", "FAILED"}
  {
    if v == "PENDING" then Some(Pending)
    else if v == "RUNNING" then Some(Running)
    else if v == "COMPLETED" then Some(Completed)
    else if v == "FAILED" then Some(Failed)
    else None
  }

  /** The status values name the statuses one to one. */
  lemma StatusRoundTrip(s: JobStatus, v: string)
    ensures ParseStatus(StatusValue(s)) == Some(s)
    ensures ParseStatus(v) == Some(s) ==> StatusValue(s) == v
  {
  }

  /** A JSON-like value of the options dictionary. */
  datatype Value = Null | Bool(b: bool) | Int(i: int) | Real(r: real) | Str(s: string)

  type Options = map<string, Value>

  /** Everything a job record holds, as a value (timestamps aside). */
  datatype Record = Record(
    id: string,
    inputPath: string,
    mediaType: string,
    options: Options,
    status: JobStatus,
    outputPath: Option<string>,
    progress: real,
    error: Option<string>)

  /** The `Job` dataclass. The identity, input and options never change
      after creation; the status, output, progress and error do. */
  class Job {
    const id: string
    const inputPath: string
    const mediaType: string
    const options: Options
    var status: JobStatus
    var outputPath: Option<string>
    var progress: real
    var error: Option<string>

    /** `Job(id=..., input_path=..., media_type=..., options=...)` with the
        field defaults. */
    constructor(id: string, inputPath: string, mediaType: string, options: Options)
      ensures Snapshot() == Record(id, inputPath, mediaType, options, Pending, None, 0.0, None)
    {
      this.id := id;
      this.inputPath := inputPath;
      this.mediaType := mediaType;
      this.options := options;
      status := Pending;
      outputPath := None;
      progress := 0.0;
      error := None;
    }

    function Snapshot(): Record
      reads this
    {
      Record(id, inputPath, mediaType, options, status, outputPath, progress, error)
    }

    /** `output_filename`. */
    function OutputFilename(): string
      reads this
    {
      FilenameOf(Snapshot())
    }
  }

  /** The download name of a record: the base name of its output path when
      that is non-empty, and "<id>_output" otherwise. */
  function FilenameOf(r: Record): (name: string)
    ensures TruthyStr(r.outputPath) ==>
      '/' !in name && |name| <= |r.outputPath.value|
      && name == r.outputPath.value[|r.outputPath.value| - |name|..]
    ensures !TruthyStr(r.outputPath) ==> name == r.id + "_output"
  {
    if TruthyStr(r.outputPath) then
      PyPath.BasenameIsLastComponent(r.outputPath.value);
      PyPath.Basename(r.outputPath.value)
    else r.id + "_output"
  }

  /** A job whose output was written as `dir/name` downloads as `name`. */
  lemma FilenameOfJoin(r: Record, dir: string, name: string)
    requires r.outputPath == Some(PyPath.Join(dir, name))
    requires name != "" && '/' !in name
    ensures FilenameOf(r) == name
  {
    PyPath.BasenameJoin(dir, name);
  }

  /** What `serialize_job` returns, timestamps aside. */
  datatype JobView = JobView(
    id: string,
    status: string,
    progress: real,
    error: Option<string>,
    mediaType: string,
    inputPath: string,
    outputPath: Option<string>,
    downloadUrl: Option<string>,
    options: Options)

  /** `serialize_job`: the record's fields, the status as its string value,
      and a download URL for completed jobs that have an output. */
  function Serialize(r: Record): (v: JobView)
    ensures ParseStatus(v.status) == Some(r.status)
    ensures v.downloadUrl.Some? <==> r.status == Completed && TruthyStr(r.outputPath)
    ensures v.downloadUrl.Some? ==> v.downloadUrl.value == "/api/download/" + r.id
    ensures v.id == r.id && v.progress == r.progress && v.error == r.error && v.outputPath == r.outputPath
    ensures v.mediaType == r.mediaType && v.inputPath == r.inputPath && v.options == r.options
  {
    var statusValue := StatusValue(r.status);
    StatusRoundTrip(r.status, statusValue);
    JobView(r.id, statusValue, r.progress, r.error, r.mediaType, r.inputPath, r.outputPath,
            if statusValue == "COMPLETED" && TruthyStr(r.outputPath) then Some("/api/download/" + r.id) else None,
            r.options)
  }

  /** The record `_run_job` leaves once the pipeline returned (`Success`
      with the output path) or raised (`Failure` with the message). */
  function Finish(r: Record, outcome: Result<string, string>): (f: Record)
    ensures f.status == Completed || f.status == Failed
    ensures f.status == Completed <==> outcome.Success?
    ensures outcome.Success? ==> f.outputPath == Some(outcome.value) && f.progress == 1.0 && f.error == r.error
    ensures outcome.Failure? ==> f.error == Some(outcome.error) && f.outputPath == r.outputPath && f.progress == r.progress
    ensures f.id == r.id && f.inputPath == r.inputPath && f.mediaType == r.mediaType && f.options == r.options
  {
    match outcome
    case Success(path) => r.(outputPath := Some(path), progress := 1.0, status := Completed)
    case Failure(msg) => r.(error := Some(msg), status := Failed)
  }

  /** A finished job offers a download exactly when it completed with a
      non-empty output path. */
  lemma FinishedDownload(r: Record, outcome: Result<string, string>)
    ensures Serialize(Finish(r, outcome)).downloadUrl.Some? <==> outcome.Success? && outcome.value != ""
  {
  }

  // ---------------------------------------------------------------------------
  // Progress updates

  /** The record after `set_progress` was called with each of `ps` in turn. */
  function AfterProgress(r: Record, ps: seq<real>): (a: Record)
    ensures ps == [] ==> a == r
    ensures ps != [] ==> a == r.(progress := PyNum.Clamp01(ps[|ps| - 1]))
    ensures 0.0 <= r.progress <= 1.0 ==> 0.0 <= a.progress <= 1.0
  {
    if ps == [] then r else r.(progress := PyNum.Clamp01(ps[|ps| - 1]))
  }

  /** The records published by those calls, one per call. */
  function ProgressRecords(r: Record, ps: seq<real>): (rs: seq<Record>)
    ensures |rs| == |ps|
    ensures forall i :: 0 <= i < |ps| ==> rs[i] == r.(progress := PyNum.Clamp01(ps[i]))
    ensures forall i :: 0 <= i < |ps| ==> 0.0 <= rs[i].progress <= 1.0
  {
    seq(|ps|, i requires 0 <= i < |ps| => r.(progress := PyNum.Clamp01(ps[i])))
  }

  lemma ProgressSnoc(r: Record, ps: seq<real>, p: real)
    ensures AfterProgress(r, ps + [p]) == AfterProgress(r, ps).(progress := PyNum.Clamp01(p))
    ensures ProgressRecords(r, ps + [p]) == ProgressRecords(r, ps) + [AfterProgress(r, ps + [p])]
  {
    assert (ps + [p])[|ps|] == p;
  }

  /** The store holds `jobs`, of which every entry is filed under its own id. */
  class JobManager {
    var jobs: map<string, Job>
    /** Every record `_update_job` has published, oldest first. */
    ghost var updates: seq<Record>

    ghost predicate Valid()
      reads this
    {
      forall k :: k in jobs ==> jobs[k].id == k
    }

    constructor()
      ensures jobs == map[] && updates == [] && Valid()
    {
      jobs := map[];
      updates := [];
    }

    /** `create_job`: a new PENDING job, filed under its id, replacing any
        job filed there before. */
    method CreateJob(id: string, inputPath: string, mediaType: string, options: Options) returns (job: Job)
      modifies this
      ensures fresh(job)
      ensures job.Snapshot() == Record(id, inputPath, mediaType, options, Pending, None, 0.0, None)
      ensures jobs == old(jobs)[id := job] && updates == old(updates)
      ensures old(Valid()) ==> Valid()
    {
      job := new Job(id, inputPath, mediaType, options);
      jobs := jobs[id := job];
    }

    /** `_update_job`: the job is filed under its id and its record published. */
    method UpdateJob(job: Job)
      modifies this
      ensures jobs == old(jobs)[job.id := job]
      ensures updates == old(updates) + [job.Snapshot()]
      ensures old(Valid()) ==> Valid()
    {
      jobs := jobs[job.id := job];
      updates := updates + [job.Snapshot()];
    }

    /** `get_job`. */
    function GetJob(id: string): (r: Option<Job>)
      reads this
      ensures r.Some? <==> id in jobs
      ensures r.Some? ==> r.value == jobs[id]
      ensures r.Some? && Valid() ==> r.value.id == id
    {
      if id in jobs then Some(jobs[id]) else None
    }

    /** `set_progress`: the clamped value is stored and the job published;
        nothing else about the job changes. */
    method SetProgress(job: Job, progress: real)
      modifies this, job
      ensures job.Snapshot() == old(job.Snapshot()).(progress := PyNum.Clamp01(progress))
      ensures jobs == old(jobs)[job.id := job]
      ensures updates == old(updates) + [job.Snapshot()]
      ensures old(Valid()) ==> Valid()
    {
      job.progress := PyNum.Clamp01(progress);
      UpdateJob(job);
    }

    /** `serialize_job`. */
    function SerializeJob(job: Job): JobView
      reads job
    {
      Serialize(job.Snapshot())
    }
  }

  /** The state of the store after `set_progress` was called with each of
      `ps` in turn on `job`, starting from the record `before`, the
      dictionary `beforeJobs` and the published records `beforeUpdates`. */
  ghost predicate Pushed(jm: JobManager, job: Job, before: Record, beforeJobs: map<string, Job>,
                         beforeUpdates: seq<Record>, ps: seq<real>)
    reads jm, job
  {
    && job.Snapshot() == AfterProgress(before, ps)
    && jm.updates == beforeUpdates + ProgressRecords(before, ps)
    && jm.jobs == (if ps == [] then beforeJobs else beforeJobs[job.id := job])
  }

  /** Reporting nothing leaves the store as it is. */
  lemma PushedNothing(jm: JobManager, job: Job)
    ensures Pushed(jm, job, job.Snapshot(), jm.jobs, jm.updates, [])
  {
    assert jm.updates + [] == jm.updates;
  }

  /** Progress reported in two batches is progress reported in one. */
  lemma ProgressCompose(r: Record, a: seq<real>, b: seq<real>)
    ensures AfterProgress(AfterProgress(r, a), b) == AfterProgress(r, a + b)
    ensures ProgressRecords(r, a) + ProgressRecords(AfterProgress(r, a), b) == ProgressRecords(r, a + b)
  {
    if b != [] {
      assert (a + b)[|a + b| - 1] == b[|b| - 1];
    }
    var lhs := ProgressRecords(r, a) + ProgressRecords(AfterProgress(r, a), b);
    forall i | 0 <= i < |a + b| ensures lhs[i] == ProgressRecords(r, a + b)[i] {
      if i < |a| {
        assert (a + b)[i] == a[i];
      } else {
        assert (a + b)[i] == b[i - |a|];
      }
    }
  }

  lemma PushedCompose(jm: JobManager, job: Job, before: Record, beforeJobs: map<string, Job>,
                      beforeUpdates: seq<Record>, a: seq<real>, b: seq<real>)
    requires Pushed(jm, job, AfterProgress(before, a), if a == [] then beforeJobs else beforeJobs[job.id := job],
                    beforeUpdates + ProgressRecords(before, a), b)
    ensures Pushed(jm, job, before, beforeJobs, beforeUpdates, a + b)
  {
    ProgressCompose(before, a, b);
    if a == [] {
      assert a + b == b;
    }
  }
}
