# LUMINA-AI backend core in Dafny

This project models the job backend of LUMINA-AI, a service that upscales and
enhances uploaded images and videos. The model covers:

- **Job store** (`Jobs`, `JobRunner`). Each job record is a `Job` object with
  a four-state status: PENDING, RUNNING, COMPLETED or FAILED. A `JobManager`
  keeps a dictionary from id to job.
  - `_update_job` files a job under its id. The model also keeps a ghost
    history: every record the store was handed, oldest first.
  - `_run_job` marks the job running, runs the pipeline, and records either
    its output path or its error message.
- **Pipeline** (`Pipeline`, `PipelineLaws`). This covers `process_media`,
  `_process_image` and `_process_video`: reading the options, naming the
  output, the stages and their cancellation checks, the frame loop, the
  interpolation target, and the progress reported through `set_progress`.
  - Each stage is a function that returns a `Run`: the outcome (a value or
    the message of the exception raised) and a trace of the work done, in
    order.
  - Each stage is also a method that does the work step by step on the job
    and the store. Each method is proved to produce exactly the run its
    function gives, and to store exactly that run's progress values.
- **Collaborators.** The upscaler (`ImageUpscaler`), the enhancers
  (`Enhancers`), the ffmpeg helpers (`Ffmpeg`) and upload file-type detection
  (`Files`).
  - The outside world (environment variables, `shutil.which`, subprocess
    outcomes, directory listings, Pillow) is given as recorded observations
    in `UpscalerEnv`, `EnhancerEnv` and `Env`.
  - An enhancer's effect is the list of image operations it performs.
  - A command's effect is its argument list.
- **Support modules.** `PyText`, `PyNum` and `PyPath` model the Python
  built-ins the code relies on: `strip`, `lower`, `str`, `float`, `int`,
  `os.path.basename`, `splitext` and `join`. `LexOrder` models string order
  and sorting.

The pipeline takes the upscaler and the enhancers as oracles that may fail
(`Env.upscale` and `Env.enhance`), so everything proved about it holds
whatever they do. Two binding modules tie those oracles to the modelled
collaborators:

- `UpscaleBinding`: the upscale calls in `pipeline.py` pass a keyword that
  `upscale_image` does not accept (see Findings). This module models both
  that call as written and the corrected call.
- `EnhanceBinding`: the enhancement calls pass only declared arguments.
  `EnhanceCall` is the message `apply_enhancements` raises for such a call,
  if any.

The code has no CANCELLED status, no cancel operation and no input
validation in `create_job`. Cancellation appears only as reads of
`cancel_requested`, which nothing in the code ever sets. The model treats the
value read at each check as an input: `Env.cancelled`, one value per
checkpoint.

## Model

| member | source | states |
|---|---|---|
| Jobs.StatusValue | backend/app/services/job_manager.py:15-19 | every status has one of the four values "PENDING", "RUNNING", "COMPLETED", "FAILED" |
| Jobs.ParseStatus | backend/app/services/job_manager.py:15-19 | `JobStatus(v)` names a status exactly when `v` is one of the four values |
| Jobs.StatusRoundTrip | backend/app/services/job_manager.py:15-19 | parsing a status's value gives that status back, and a parsed value is the status's own value, so values and statuses correspond one to one |
| Jobs.Job.constructor | backend/app/services/job_manager.py:25-36 | a new job has the given identity, input, media type and options, and is PENDING with no output, progress 0.0 and no error |
| Jobs.FilenameOf | backend/app/services/job_manager.py:38-41 | with a non-empty output path, the download name is a slash-free final part of that path; otherwise it is "<id>_output" |
| Jobs.FilenameOfJoin | backend/app/services/job_manager.py:38-41 | a job whose output is `dir/name` downloads as `name` |
| Jobs.JobManager.constructor | backend/app/services/job_manager.py:48-52 | a new store holds no jobs and has stored nothing yet |
| Jobs.JobManager.CreateJob | backend/app/services/job_manager.py:61-65 | a fresh PENDING job is filed under its id, replacing any job there; every other entry and the store history are unchanged; ids stay consistent |
| Jobs.JobManager.UpdateJob | backend/app/services/job_manager.py:85-88 | the job is filed under its own id, every other entry is unchanged, and its current record is appended to the store history |
| Jobs.JobManager.GetJob | backend/app/services/job_manager.py:90-92 | the result is present exactly when the id is stored and is then the stored job; in a consistent store that job has the requested id |
| Jobs.JobManager.SetProgress | backend/app/services/job_manager.py:94-96 | only the job's progress changes, to the clamped value; the job is filed and its record appended to the history |
| PyNum.Clamp01 | backend/app/services/job_manager.py:95 | the clamped value is in [0, 1]; it equals the input inside that range, 0 below it and 1 above it |
| Jobs.AfterProgress | backend/app/services/job_manager.py:94-96 | after a series of `set_progress` calls the record has the clamp of the last value (or is unchanged if there were none), and progress stays in [0, 1] |
| Jobs.ProgressRecords | backend/app/services/job_manager.py:94-96 | a series of `set_progress` calls stores one record per call, each holding its clamped value in [0, 1] |
| Jobs.ProgressCompose | backend/app/services/job_manager.py:94-96 | progress reported in two batches leaves the same record and history as the same values reported in one batch |
| Jobs.Serialize | backend/app/services/job_manager.py:98-112 | the status string parses back to the job's status; a download URL "/api/download/<id>" is present exactly when the job is COMPLETED with a non-empty output path; the other fields are copied |
| Jobs.Finish | backend/app/services/job_manager.py:73-81 | success gives COMPLETED with the returned path, progress 1.0 and the old error; failure gives FAILED with the message, keeping output and progress; the job is never left PENDING or RUNNING, and its identity is unchanged |
| Jobs.FinishedDownload | backend/app/services/job_manager.py:108 | a finished job offers a download exactly when the pipeline returned a non-empty path |
| JobRunner.RunJob | backend/app/services/job_manager.py:70-83 | the pipeline run is the one specified for the job's record; the job ends as `Settled`; the history gains RUNNING, each progress record, then the final record, in that order; the job is filed under its id and no other entry changes |
| JobRunner.MarkRunning | backend/app/services/job_manager.py:71-72 | only the status changes, to RUNNING, and that record is stored before the pipeline runs |
| JobRunner.Settle | backend/app/services/job_manager.py:73-83 | the job becomes `Finish` of the outcome, and the final record is stored whatever the outcome |
| JobRunner.SettledResult | backend/app/services/job_manager.py:73-81 | COMPLETED exactly when the pipeline returned (with its path and progress 1.0), FAILED exactly when it raised (with its message); downloadable exactly when it completed |
| JobRunner.PublishedStatuses | backend/app/services/job_manager.py:70-83 | every stored record before the last one is RUNNING, and the last is COMPLETED or FAILED |
| JobRunner.PublishedProgressRises | backend/app/services/job_manager.py:70-83 | for a job whose starting progress is at most 0.1 (a new job starts at 0.0), the stored progress never decreases across the run |
| JobRunner.FinalProgress | backend/app/services/job_manager.py:74-81 | the final record's progress is at least the starting progress and every value reported before it |
| JobRunner.UnsupportedMedia | backend/app/services/pipeline.py:45-54 | a job of another media type ends FAILED with "Unsupported media type: <type>", and nothing is stored between RUNNING and FAILED |
| JobRunner.AsWrittenImageJobFails | backend/app/services/pipeline.py:76-85 | with the call as written, an image job that asks for upscaling and is not cancelled ends FAILED with the `TypeError` message and reports no progress |
| Pipeline.FromDict | backend/app/services/pipeline.py:28-42 | each option is `data.get` of its own key, and absent when the key is missing; `FromDictToDict` and `FromDictEmpty` state this for every set of options |
| Pipeline.FromDictToDict | backend/app/services/pipeline.py:28-42 | reading the options back from the dictionary of a set of options gives those options: each field comes from its own key |
| Pipeline.FromDictEmpty | backend/app/services/pipeline.py:28-42 | an empty dictionary gives no options at all |
| Pipeline.OutputFormat | backend/app/services/pipeline.py:62-64 | the chosen format is always in the allow-list: the lower-cased request when that is allowed, the default otherwise |
| Pipeline.OutputFormatIdempotent | backend/app/services/pipeline.py:62-64 | choosing the format again from the chosen one keeps it |
| Pipeline.OutputFormatIgnoresCase | backend/app/services/pipeline.py:62-64 | the requested format is read without regard to letter case |
| Pipeline.Suffix | backend/app/services/pipeline.py:66-68 | a non-empty mode gives the mode with each space replaced by `_` and every other character kept, so no space remains when the default has none; an empty or missing mode gives the default |
| Pipeline.BaseName | backend/app/services/pipeline.py:61 | the base name is the root `splitext` gives for the input's last path component, so it has no `/` and is a prefix of that component |
| Pipeline.BaseNameOfJoin | backend/app/services/pipeline.py:61 | for every directory, a file name `stem.ext` whose stem is not dots only and whose extension has no dot gives the base name `stem` |
| Pipeline.ImageOutputClassified | backend/app/services/pipeline.py:61-69 | an image job's output path has the chosen format as its extension, is classified "image" by the upload checks, is saved in that format, and, for a mode without `/`, downloads under its own name |
| Pipeline.VideoOutputClassified | backend/app/services/pipeline.py:159-166 | a video job's output path has the chosen format as its extension, is classified "video", and, for a mode without `/`, downloads under its own name |
| Pipeline.EnhanceModeAgrees | backend/app/services/pipeline.py:94 | passing "general" for a missing or empty mode selects the same enhancer as the enhancers' own default would |
| Pipeline.FpsOrDefault | backend/app/services/pipeline.py:114 | the frame rate is the probed one when it is truthy and 30.0 otherwise, and is never zero |
| Pipeline.ChosenFactor | backend/app/services/pipeline.py:174 | `rife_factor` when it is set and above 1, `interp_factor` otherwise |
| Pipeline.InterpFps | backend/app/services/pipeline.py:171-179 | there is a target rate exactly when interpolation is asked for and the chosen factor is above 1, and it is then fps times the factor |
| Pipeline.InterpolationReachesFilter | backend/app/services/pipeline.py:172-188 | for a positive frame rate, `assemble_video` adds its interpolation filter exactly when the pipeline set a target rate |
| Pipeline.TotalFrames | backend/app/services/pipeline.py:122-123 | the progress total is 0 or the number of listed files; it is 0 exactly when extraction counted none or nothing was listed |
| Pipeline.ImageCancelFirst | backend/app/services/pipeline.py:71-73 | a cancelled image job fails with "cancelled" before any collaborator call |
| Pipeline.ImageUpscalesIff | backend/app/services/pipeline.py:75-88 | the upscaler is called once, on the input and as the first step, exactly when a scale or target size is set and the job was not cancelled |
| Pipeline.ImageEnhanceArguments | backend/app/services/pipeline.py:86-96 | the enhancer reads the temporary upscaled file when there was upscaling and the input otherwise; it writes the output path and gets mode "general" for an empty or missing mode and strength 0.6 for a missing one |
| Pipeline.ImageEnhanceCall | backend/app/services/pipeline.py:86-96 | the only enhancement call in an image run is that one; it comes right after the upscale call and reads the file that call wrote |
| Pipeline.ImageProgress | backend/app/services/pipeline.py:98-99 | an image job reports exactly one progress value, 1.0, and only when it succeeds, returning its output path |
| Pipeline.ImageRun | backend/app/services/pipeline.py:57-99 | the reference run of an image job: the cancel check, the upscale into the temporary file when a scale or targets are set, one enhancement into the output path, then progress 1.0; a raise at any call ends the run with its message. Its properties are the `Image…` lemmas |
| Pipeline.ProcessImage | backend/app/services/pipeline.py:57-99 | the step-by-step image job produces the run `ImageRun` specifies, and the store receives exactly that run's progress values |
| Pipeline.ExtractStage | backend/app/services/pipeline.py:103-118 | the reference run of the first video stage: the ffmpeg gate, the first cancel check, the probe and the frame extraction (whose failure ends the run), the audio extraction (whose failure is kept as a flag) and progress 0.1 |
| Pipeline.ExtractVideo | backend/app/services/pipeline.py:102-118 | the ffmpeg check, first cancel check, probe, frame and audio extraction and progress 0.1 produce the run `ExtractStage` specifies, and the store receives its progress |
| Pipeline.FrameStep | backend/app/services/pipeline.py:130-154 | the reference run of one loop iteration: the cancel check for that frame, the upscale, the enhancement, and the progress 0.1 + 0.8·k/n when a total is known |
| Pipeline.ProcessFrame | backend/app/services/pipeline.py:129-154 | one frame: cancel check, upscale into `processed/tmp_<name>`, enhance into `processed/<name>`, then progress when a total is known, as `FrameStep` specifies |
| Pipeline.ChainAdvance | backend/app/services/pipeline.py:128-154 | one more frame either ends the loop with its failure or hands on to the next frame |
| Pipeline.FramesRun | backend/app/services/pipeline.py:128-154 | the frame loop as a chain of `FrameStep`s over the listed files that stops at the first failure; `PipelineLaws.FramesSucceedIff`, `FramesUpscaleOrder` and `FramesProgress` state what it does |
| Pipeline.ProcessFrames | backend/app/services/pipeline.py:128-154 | the frame loop stops at the first frame that raises and otherwise runs every frame, producing the run `FramesRun` specifies; the store receives exactly its progress values |
| Pipeline.AssembleFor | backend/app/services/pipeline.py:181-188 | assembly gets the processed frames, the frame rate, the output path, the bitrate and the interpolation target; the audio path is passed exactly when audio was extracted |
| Pipeline.AssembleStage | backend/app/services/pipeline.py:157-199 | the reference run of the last stage: the output path, the last cancel check, the assembly command (whose failure ends the run), progress 0.98, removal of `raw/`, and progress 1.0, returning the output path |
| Pipeline.AssembleOutput | backend/app/services/pipeline.py:168-198 | the last cancel check, the assembly and the cleanup produce the run `AssembleStage` specifies |
| Pipeline.FinishVideo | backend/app/services/pipeline.py:190-198 | after assembly: progress 0.98, removal of the raw frames, progress 1.0 |
| Pipeline.VideoRun | backend/app/services/pipeline.py:102-199 | the reference run of a video job: `ExtractStage`, then the listing, the frame loop and the assembly, stopping at the first failure. Its properties are `PipelineLaws.VideoProgress`, `VideoSuccess` and `FfmpegGate` |
| Pipeline.ProcessVideo | backend/app/services/pipeline.py:102-199 | the step-by-step video job produces the run `VideoRun` specifies, and the store receives exactly its progress values |
| Pipeline.ProcessExtracted | backend/app/services/pipeline.py:121-199 | frame listing, total correction, frame loop and assembly produce the run `FramesAndAssemble` specifies |
| Pipeline.MediaRun | backend/app/services/pipeline.py:45-54 | "image" runs the image pipeline, "video" the video pipeline, and any other type fails with "Unsupported media type: <type>" before any work |
| Pipeline.ProcessMedia | backend/app/services/pipeline.py:45-54 | dispatch on the job produces the run `MediaRun` specifies, and the store receives exactly its progress values |
| PipelineLaws.ChainSucceedsIff | backend/app/services/pipeline.py:129-149 | a frame loop succeeds exactly when every frame does; a failed loop fails with the outcome of its first failing frame |
| PipelineLaws.FramesSucceedIff | backend/app/services/pipeline.py:129-149 | the frame loop succeeds exactly when each listed frame's step does, and otherwise fails with the first failing frame's message |
| PipelineLaws.ChainUpscaleOrder | backend/app/services/pipeline.py:129-143 | a loop whose frames each upscale only their own file upscales a prefix of the files in list order, all of them when it succeeds |
| PipelineLaws.FramesUpscaleOrder | backend/app/services/pipeline.py:129-143 | the frames are upscaled in list order, each at most once; on success every listed frame was upscaled |
| PipelineLaws.FrameStepInputs | backend/app/services/pipeline.py:130-143 | one frame's step upscales that frame and nothing else, unless it was cancelled first |
| PipelineLaws.FractionBounds | backend/app/services/pipeline.py:152-154 | the fraction after a frame is above 0.1, rises with the frame number, and is at most 0.9 for frames within the total |
| PipelineLaws.ScheduleIncreasing | backend/app/services/pipeline.py:152-154 | the frame fractions are strictly increasing and lie in (0.1, 0.9] |
| PipelineLaws.FrameStepProgress | backend/app/services/pipeline.py:150-154 | one frame reports its fraction when it succeeds and a total is known, and nothing otherwise |
| PipelineLaws.ChainProgress | backend/app/services/pipeline.py:128-154 | a loop reports a prefix of the frame schedule, and all of it when it succeeds |
| PipelineLaws.FramesProgress | backend/app/services/pipeline.py:128-154 | the frame loop reports 0.1 + 0.8·k/n after frame k, for a prefix of the frames, and for all of them when it succeeds |
| PipelineLaws.ExtractProgress | backend/app/services/pipeline.py:103-118 | extraction reports exactly 0.1 when it succeeds and nothing otherwise |
| PipelineLaws.AssembleProgress | backend/app/services/pipeline.py:168-198 | assembly reports 0.98 then 1.0 when it succeeds and nothing otherwise |
| PipelineLaws.FramesAndAssembleProgress | backend/app/services/pipeline.py:121-198 | after extraction the reported values rise and lie in (0.1, 1.0], ending at 1.0 on success |
| PipelineLaws.VideoProgress | backend/app/services/pipeline.py:102-199 | a video job reports strictly rising values in [0.1, 1.0]; on success they start at 0.1 and end at 1.0 |
| PipelineLaws.VideoSuccess | backend/app/services/pipeline.py:102-199 | a successful video job found ffmpeg and ffprobe, extracted and assembled without error, passed every cancel check, and upscaled exactly the listed frames, in order |
| PipelineLaws.ExtractSuccess | backend/app/services/pipeline.py:103-118 | extraction succeeds only with ffmpeg present, no cancellation and no extraction error, and upscales nothing |
| PipelineLaws.ExtractTrace | backend/app/services/pipeline.py:103-118 | an extraction that gets past its checks issues no upscale |
| PipelineLaws.FramesAndAssembleSuccess | backend/app/services/pipeline.py:121-199 | after extraction, success means no cancellation at any frame or before assembly, no assembly error, and exactly the listed frames upscaled |
| PipelineLaws.AssembleUpscalesNothing | backend/app/services/pipeline.py:168-198 | the assembly stage calls no upscaler |
| PipelineLaws.AsWrittenImageFails | backend/app/services/pipeline.py:76-85 | with the call as written, an image job that asks for upscaling and is not cancelled fails at its first step with the `TypeError` message |
| PipelineLaws.AsWrittenVideoFails | backend/app/services/pipeline.py:128-143 | with the call as written, a video job succeeds only if no frames are listed; with frames and no cancel before the first one, it fails with the `TypeError` message |
| PipelineLaws.FirstFrameFails | backend/app/services/pipeline.py:130-143 | with the call as written, the first frame fails with "cancelled" or with the `TypeError` message |
| PipelineLaws.CorrectedImageSucceeds | backend/app/services/pipeline.py:57-99 | with the corrected call, an uncancelled image job completes with its output path whenever the upscaler (when asked) and the enhancer succeed |
| PipelineLaws.MediaProgress | backend/app/services/pipeline.py:45-54 | whatever the media type, reported progress rises within [0.1, 1.0] and ends at 1.0 on success |
| PipelineLaws.MediaOutput | backend/app/services/pipeline.py:45-54 | a successful job returns its image or video output path, which is never empty |
| PipelineLaws.FramesAndAssembleOutput | backend/app/services/pipeline.py:157-199 | a successful video job after extraction returns the video output path |
| UpscaleBinding.AsWrittenCall | backend/app/services/pipeline.py:78-85 | the call with the extra `realesrgan_model` keyword always raises the `TypeError` |
| UpscaleBinding.CorrectedCall | backend/app/services/image_upscaler.py:64-70 | the call on the declared parameters raises exactly when `upscale_image` fails, with its message |
| UpscaleBinding.AsWrittenDiffers | backend/app/services/pipeline.py:78-85 | wherever the upscaler itself would succeed, the call as written and the corrected call differ |
| UpscaleBinding.CorrectedIgnoresModel | backend/app/services/image_upscaler.py:64-70 | once corrected, the model name plays no part, and the call succeeds whenever the tool's attempt does |
| Ffmpeg.FfmpegAvailable | backend/app/utils/ffmpeg.py:10-11 | both `ffmpeg` and `ffprobe` are on the search path; `PipelineLaws.FfmpegGate` states what it gates |
| PipelineLaws.FfmpegGate | backend/app/services/pipeline.py:103-104 | without either tool a video job fails with the "ffmpeg is required" message before doing anything, even before the cancel check; with both tools and no cancellation the probe is its first step |
| Ffmpeg.ProbeCommand | backend/app/utils/ffmpeg.py:20-31 | the probe is the ten-argument ffprobe call that ends with the input path |
| Ffmpeg.ParseRate | backend/app/utils/ffmpeg.py:32-40 | the stripped output split at its first `/` reads as numerator over denominator, with no rate for a zero denominator or an unreadable part; without a `/` it reads as one number. `ParseRateFraction` and `ParseRateWhole` state this for ffprobe's spellings |
| Ffmpeg.GetVideoFps | backend/app/utils/ffmpeg.py:18-42 | a failed probe gives no rate; otherwise the rate is the parse of what the probe printed |
| Ffmpeg.ParseRateFraction | backend/app/utils/ffmpeg.py:32-39 | a printed rate "n/d\n" reads as n/d, and as no rate when d is zero |
| Ffmpeg.ParseRateWhole | backend/app/utils/ffmpeg.py:40 | a printed whole number reads as itself |
| Ffmpeg.IsFrameName | backend/app/utils/ffmpeg.py:55 | eight ASCII digits followed by ".png", optionally followed by one newline, because `$` also matches before a final newline |
| Ffmpeg.FrameNames | backend/app/utils/ffmpeg.py:54-55 | only names that match the frame pattern, every listed name that matches, and no more entries than the listing |
| Ffmpeg.FrameNamesAppend | backend/app/utils/ffmpeg.py:54-55 | filtering two listings one after the other gives the two filtered results in that order, so the matching names keep their listing order |
| Ffmpeg.FrameNamesSingle | backend/app/utils/ffmpeg.py:54-55 | a one-entry listing keeps its entry exactly when it matches the pattern |
| Ffmpeg.FrameNamesCount | backend/app/utils/ffmpeg.py:54-55 | each matching name appears as often as it is listed, and no other name appears |
| Ffmpeg.ExtractCommand | backend/app/utils/ffmpeg.py:47-50 | the extraction command reads the input video and writes `raw/%08d.png` |
| Ffmpeg.ExtractFrames | backend/app/utils/ffmpeg.py:45-57 | the command's failure propagates; otherwise the counting loop gives the number of matching entries |
| Ffmpeg.FramePaths | backend/app/utils/ffmpeg.py:62 | the matching names joined under `raw/`, one for one and in listing order |
| Ffmpeg.ListFrameFiles | backend/app/utils/ffmpeg.py:60-64 | the result is sorted and a permutation of the matching paths, and has as many entries as extraction counts over the same listing |
| Ffmpeg.DigitsLexOrder | backend/app/utils/ffmpeg.py:63 | for digit strings of the same length, string order is numeric order |
| Ffmpeg.FrameOrder | backend/app/utils/ffmpeg.py:62-63 | frame names sort in frame-number order because they all have eight digits |
| Ffmpeg.FramePathOrder | backend/app/utils/ffmpeg.py:62-63 | that order is kept once the names are joined under the same directory |
| Ffmpeg.FrameNameOrder | backend/app/utils/ffmpeg.py:62-63 | for every name the pattern accepts, including one with a trailing newline, string order never puts a higher frame number first, and a lower frame number always sorts first |
| Ffmpeg.FrameNamePathOrder | backend/app/utils/ffmpeg.py:62-63 | the same holds once the names are joined under one directory |
| Ffmpeg.SortedFramesInFrameOrder | backend/app/utils/ffmpeg.py:60-64 | for every listing, the sorted listing holds names the pattern accepts, each joined under `raw/`, in non-decreasing frame number |
| LexOrder.SortInPlace | backend/app/utils/ffmpeg.py:63 | sorting in place leaves the array sorted and a permutation of what it held |
| LexOrder.SortSeq | backend/app/utils/ffmpeg.py:63 | the reference sort returns a sorted permutation of its input |
| LexOrder.SortedUnique | backend/app/utils/ffmpeg.py:63 | two sorted permutations of the same strings are equal |
| LexOrder.SortedIsSortSeq | backend/app/utils/ffmpeg.py:63 | any sorted permutation is the result of the reference sort |
| Ffmpeg.AudioCommand | backend/app/utils/ffmpeg.py:69 | the audio command reads the input, drops the video with `-vn`, and ends with the audio output path |
| Ffmpeg.ExtractAudio | backend/app/utils/ffmpeg.py:67-72 | true exactly when the command succeeded; a failure is reported, never raised |
| Ffmpeg.AssembleVideo | backend/app/utils/ffmpeg.py:75-118 | the command built step by step is `AssembleCommand`, and the command's failure propagates |
| Ffmpeg.AssembleRoundTrip | backend/app/utils/ffmpeg.py:83-116 | the command reads back to the request: frame rate and pattern; the filter only when the target rate is set and higher; the bitrate only when non-empty; the audio only when given and present; the output last |
| Ffmpeg.AssembleFrame | backend/app/utils/ffmpeg.py:86-116 | the command starts `ffmpeg -y -framerate <fps> -i <pattern>` and ends with the output path |
| ImageUpscaler.CliEligible | backend/app/services/image_upscaler.py:76 | the scale is truthy, whole and one of 2, 3 and 4; `CliEligibleScales` says which scales these are |
| ImageUpscaler.CliEligibleScales | backend/app/services/image_upscaler.py:76 | the command-line tool is tried exactly for the scales 2, 3 and 4 |
| ImageUpscaler.ModelsDir | backend/app/services/image_upscaler.py:25 | the models directory is the environment variable's value when it is set (even to ""), the default otherwise |
| ImageUpscaler.CliCommand | backend/app/services/image_upscaler.py:23-32 | the tool, input, output and truncated scale, then the optional model, thread and GPU flags; `CliCommandOptions` states how each flag is chosen |
| ImageUpscaler.BuildCliCommand | backend/app/services/image_upscaler.py:23-32 | the command built step by step with `extend` is `CliCommand` |
| ImageUpscaler.CliCommandOptions | backend/app/services/image_upscaler.py:23-32 | the tool gets input, output and the truncated scale, plus `-m` exactly when the models directory exists, `-t` exactly when `NCNN_THREADS` is non-empty, and `-g` exactly when `NCNN_GPU` is "0" or "1" |
| ImageUpscaler.CliScaleArgument | backend/app/services/image_upscaler.py:23 | for an eligible scale the tool is asked for "2", "3" or "4" |
| ImageUpscaler.PillowSize | backend/app/services/image_upscaler.py:44-49 | the new size: both targets when both are truthy, each side times a positive scale truncated like `int`, or the original size; the `PillowSize…` lemmas state its cases |
| ImageUpscaler.PillowSizeTargets | backend/app/services/image_upscaler.py:44-49 | both targets are used when both are truthy; a single target is ignored |
| ImageUpscaler.PillowSizeWholeScale | backend/app/services/image_upscaler.py:46-47 | a whole scale k multiplies both sides by exactly k |
| ImageUpscaler.PillowSizeGrows | backend/app/services/image_upscaler.py:44-49 | a scale of at least 1 never shrinks either side; with no positive scale and no targets the size is kept |
| ImageUpscaler.SaveFormatFor | backend/app/services/image_upscaler.py:55-61 | the save format is chosen from the lower-cased extension of the output path |
| ImageUpscaler.SaveFormatIgnoresCase | backend/app/services/image_upscaler.py:55-61 | the save format is chosen without regard to letter case |
| ImageUpscaler.SaveFormatOfSuffix | backend/app/services/image_upscaler.py:55-61 | `dir/stem.fmt` is saved as JPEG q95 for jpg and jpeg, WEBP q95 for webp, and in Pillow's default otherwise |
| ImageUpscaler.UpscaleWithPillow | backend/app/services/image_upscaler.py:37-61 | without Pillow, a copy that fails exactly when the copy raises; with Pillow, the open error, or the `ValueError` of a refused resize, or the save error, or success with the new size and the extension's format; success exactly when the open succeeds, the resize is accepted and the save succeeds |
| ImageUpscaler.ResizeRefusal | backend/app/services/image_upscaler.py:44-52 | `resize` is refused exactly when the size changes and a side drops below 1; a positive target pair, or a scale of at least 1 on a non-empty image without a target pair, is always accepted |
| ImageUpscaler.ShrunkToNothing | backend/app/services/image_upscaler.py:46-52 | a positive scale below 1/w on a side of w pixels truncates that side to 0, and the resize is refused |
| ImageUpscaler.UpscaleImage | backend/app/services/image_upscaler.py:64-91 | the tool's result when its attempt succeeds; otherwise exactly the Pillow path |
| ImageUpscaler.UpscaleUsesCli | backend/app/services/image_upscaler.py:76-83 | the tool is used exactly when its attempt succeeds; its errors are swallowed |
| ImageUpscaler.CliIgnoresTargets | backend/app/services/image_upscaler.py:73-80 | when the tool succeeds the target sizes play no part, contrary to the docstring |
| ImageUpscaler.UpscaleFallback | backend/app/services/image_upscaler.py:37-91 | when the tool's attempt does not succeed: without Pillow the input is copied unchanged; with Pillow the call succeeds exactly when the resize is accepted and the save succeeds, with the size rule and the extension's format; a refused resize fails with its `ValueError`, and a failed open with the open error |
| Enhancers.NormaliseMode | backend/app/services/enhancers.py:93 | `(mode or "").strip().lower()`; `NormaliseModeIdempotent` and `SelectIgnoresCase` state its properties |
| Enhancers.NormaliseModeIdempotent | backend/app/services/enhancers.py:93 | normalising a mode twice is normalising it once |
| Enhancers.SelectEnhancer | backend/app/services/enhancers.py:92-99 | face exactly for the three face modes, repair exactly for the three repair modes, and general for everything else, after strip and lower |
| Enhancers.SelectDefault | backend/app/services/enhancers.py:93-99 | a missing or empty mode selects the general enhancer |
| Enhancers.SelectGeneralName | backend/app/services/enhancers.py:93-99 | "general" selects the general enhancer |
| Enhancers.SelectIgnoresCase | backend/app/services/enhancers.py:93 | the selection ignores letter case |
| Enhancers.SelectIgnoresSpace | backend/app/services/enhancers.py:93 | leading whitespace, including the Unicode spaces `strip()` removes, plays no part in the selection |
| Enhancers.SaveTo | backend/app/services/enhancers.py:47 | the closing save succeeds exactly when it raises nothing, and then appends the save of the output path; otherwise it fails with the save's error |
| Enhancers.EnhanceGeneral | backend/app/services/enhancers.py:32-47 | a successful general chain applies contrast in [1, 1.5] and then sharpness in [1, 3] after the open and RGB conversion |
| Enhancers.EnhanceFace | backend/app/services/enhancers.py:50-70 | a successful GFPGAN run is the whole result; otherwise a successful chain has six steps, with contrast in [1, 1.3] and sharpness in [1, 4] |
| Enhancers.RepairImage | backend/app/services/enhancers.py:73-89 | a successful repair chain ends with sharpness in [1, 1.5] and the save |
| Enhancers.ApplyEnhancements | backend/app/services/enhancers.py:92-99 | the enhancer `SelectEnhancer` picks, run on the same paths and strength; `StrengthIsClamped` and `EnhancementWritesOutput` state what every enhancement does |
| Enhancers.StrengthIsClamped | backend/app/services/enhancers.py:32-99 | every enhancer behaves for a strength s exactly as for its clamp into [0, 1] |
| Enhancers.GeneralPlan | backend/app/services/enhancers.py:32-47 | when the open and the save succeed: open, RGB, contrast 1+0.5s in [1, 1.5], sharpness 1+2s in [1, 3], a 3-pixel median exactly when s > 0.6, then save to the output |
| Enhancers.GeneralMonotone | backend/app/services/enhancers.py:39-43 | the strength decides neither success nor the error; with a stronger setting, the general chain's contrast and sharpness steps are never weaker |
| Enhancers.FaceMonotone | backend/app/services/enhancers.py:50-70 | the face enhancer succeeds or fails alike for every strength, a GFPGAN result ignores the strength, and with a stronger setting the Pillow chain's contrast and sharpness steps are never weaker |
| Enhancers.FacePlan | backend/app/services/enhancers.py:50-70 | a successful GFPGAN run is the whole job, with Pillow untouched; otherwise, when the open and the save succeed, contrast 1+0.3s, sharpness 1+3s, SMOOTH, save |
| Enhancers.RepairPlan | backend/app/services/enhancers.py:73-89 | when the open and the save succeed: median 5 and SMOOTH_MORE from 0.75, median 3 and SMOOTH from 0.4, SMOOTH alone below; then sharpness 1+0.5s and save |
| Enhancers.PillowRequired | backend/app/services/enhancers.py:23-89 | without Pillow the general and repair enhancers raise "Pillow is required…"; the face enhancer raises it exactly when GFPGAN did not succeed |
| Enhancers.SaveErrorPropagates | backend/app/services/enhancers.py:47-99 | once the image is open, a failing save is the error of the general and repair enhancers, and of the face enhancer exactly when GFPGAN did not succeed |
| Enhancers.EnhancementWritesOutput | backend/app/services/enhancers.py:92-99 | every successful enhancement ends by writing the output path, or is the GFPGAN command writing it |
| EnhanceBinding.EnhanceCall | backend/app/services/pipeline.py:91-96 | the pipeline's enhancement call raises exactly when `apply_enhancements` fails, with its message |
| EnhanceBinding.ImageJobWithoutPillow | backend/app/services/pipeline.py:91-96 | with the enhancers bound and Pillow missing, an image job that reaches a general or repair enhancement fails with "Pillow is required…", and the call is its last step |
| Files.GetFileExtension | backend/app/utils/files.py:9-10 | the extension is empty or a dot followed by no dot and no `/`; it is the lower-cased `splitext` extension |
| Files.AllowedFile | backend/app/utils/files.py:13-15 | the extension is in either allow-list; `AllowedIffDetected` ties it to `detect_media_type` |
| Files.ExtensionPresent | backend/app/utils/files.py:9-10 | a name has an extension exactly when its last component has a dot with something other than dots before it, so leading dots do not count |
| Files.DetectMediaType | backend/app/utils/files.py:18-24 | "image" exactly for image extensions, "video" exactly for video extensions, and otherwise the `ValueError` message naming the extension |
| Files.ExtensionSetsDisjoint | backend/app/utils/files.py:5-6 | no extension is both an image and a video extension |
| Files.AllowedIffDetected | backend/app/utils/files.py:13-24 | a file is allowed exactly when its media type can be detected |
| Files.ExtensionIgnoresCase | backend/app/utils/files.py:10 | a name and its lower-cased form have the same extension |
| Files.DetectIgnoresCase | backend/app/utils/files.py:9-24 | names that differ only in letter case are classified and allowed alike |
| Files.ExtensionOfName | backend/app/utils/files.py:9-10 | `stem.ext` has the extension `.ext`, lower-cased |
| Files.DotFileHasNoExtension | backend/app/utils/files.py:9-15 | a name whose last component is dots only up to its last dot, such as ".png" or "dir/..mkv", has no extension and is refused |
| Files.RefusedGif | backend/app/utils/files.py:18-24 | a ".gif" file is refused, with the extension named in the message |
| PyPath.Basename | backend/app/services/pipeline.py:61 | `os.path.basename`: the part after the last `/`; `BasenameIsLastComponent` states that it is a slash-free final part of the path |
| PyPath.BasenameIsLastComponent | backend/app/services/pipeline.py:61 | the base name has no `/`, ends the path, and is the whole path or follows a `/` |
| PyPath.Splitext | backend/app/utils/files.py:10 | `os.path.splitext`: the two parts put back together are the path |
| PyPath.SplitextNonEmpty | backend/app/utils/files.py:10 | the extension is non-empty exactly when the last component has a dot with something other than dots before it |
| PyPath.SplitextJoin | backend/app/services/pipeline.py:69 | `dir/stem.ext` splits into `dir/stem` and `.ext` for a stem that is not all dots |
| PyPath.Join | backend/app/services/pipeline.py:69 | `os.path.join` of two parts: the second alone when absolute, otherwise the first with a `/` added when needed; `BasenameJoin` states that the joined name is the base name |
| PyPath.BasenameJoin | backend/app/services/pipeline.py:132-135 | the base name of `dir/name` is `name` |
| PyText.Strip | backend/app/services/enhancers.py:93 | `str.strip()` with Python's whitespace set; `StripIsTrimmedSlice` states that it cuts only whitespace and leaves none at either end |
| PyText.StripIsTrimmedSlice | backend/app/services/enhancers.py:93 | the stripped text is a piece of the input with no whitespace at either end, and only whitespace is cut away |
| PyText.StripSpacePrefix | backend/app/services/enhancers.py:93 | any leading whitespace is cut away: stripping `ws + s` gives the strip of `s` |
| PyText.Lower | backend/app/utils/files.py:10 | `str.lower()` on ASCII letters: same length, each character lower-cased |
| PyText.StripLowerCommute | backend/app/services/enhancers.py:93 | stripping and lower-casing commute |
| PyNum.ParseFloat | backend/app/utils/ffmpeg.py:35-40 | `float` of a decimal numeral with optional sign and surrounding whitespace; `ParseFloatNat` states that the decimal spelling of a natural reads back as itself |
| PyNum.ParseFloatNat | backend/app/utils/ffmpeg.py:35-40 | `float(str(n)) == n` for every natural n |
| PyNum.Trunc | backend/app/services/image_upscaler.py:47 | `int` on a float truncates toward zero: within 1 of the value on its side of zero |

## Left out

- `JobManager.enqueue`, the `ThreadPoolExecutor`, both `Lock`s and the `get_shared` singleton are not modelled. `enqueue` only hands `_run_job` to a worker thread; `JobRunner.RunJob` is that call, run sequentially. Concurrent jobs are not modelled.
- `created_at` and `updated_at` are not modelled, since they only record `time.time()`. The store history stands in for the order of `_update_job` calls.
- `_logger.exception` is not modelled, since logging has no effect on the job.
- Exceptions are modelled by their `str(exc)` message alone. Their types (`RuntimeError`, `ValueError`, `TypeError`, `CalledProcessError`, Pillow's errors) are not told apart, because `_run_job` keeps only the message.
- The messages of subprocess, Pillow and file-system errors are inputs to the model, because their text comes from outside the code.
- Floats are exact `real`s, so IEEE rounding is not modelled. `str` on a float is the input function `Env.show`.
- PyText.Lower: lower-cases the ASCII letters A to Z only. Python's `str.lower()` maps every cased Unicode letter, sometimes to two characters. For example, U+212A (KELVIN SIGN) lower-cases to "k" in Python and is kept in the model, so a name or option spelled with such a letter can be read differently.
- Files.GetFileExtension: through `PyText.Lower`, refuses "a.m\u212Av", which Python reads as ".mkv", a video.
- Pipeline.OutputFormat: through `PyText.Lower`, falls back to the default for a requested video format "m\u212Av", which Python lower-cases to the allowed "mkv".
- Enhancers.SelectEnhancer: normalises the mode through `PyText.Lower`, so the normalised text differs from Python's for capitals outside ASCII. The selection still agrees with Python, because the only such capital Python lower-cases into ASCII is U+212A, which gives "k", and no mode name contains a "k". `PyText.Strip` uses Python's whitespace set, so "\u00a0face" selects face, as in Python (`Enhancers.SelectIgnoresSpace`).
- Ffmpeg.IsFrameName: `\d` is read as the ASCII digits 0 to 9. Python's `re` on a `str` pattern also matches every other Unicode decimal digit, for example eight Arabic-Indic digits followed by ".png". ffmpeg itself writes ASCII digits only.
- Ffmpeg.FrameNames: inherits the ASCII reading of `\d` from `IsFrameName`.
- PyNum.ParseFloat: reads only `[+|-]digits[.digits]` with surrounding whitespace. Exponents, `inf`, `nan` and digit separators, which Python's `float` also accepts, read as a failure, and so do non-ASCII decimal digits such as `"\u0663\u0660"`, which Python reads as 30.0. This can turn such a probed rate into the 30.0 default; ffprobe prints ASCII.
- Option values of an unexpected JSON type read as absent. The `options or {}` of a job without options is not modelled. Python would keep such a value and might raise later, for example in `float(options.strength)`.
- `AppConfig`, `os.makedirs` and `shutil.rmtree` are not modelled as operations. The output and frames directories are inputs, directory creation always succeeds in the model, and removing the raw frames is a trace event, because the code ignores its errors.
- `subprocess.run`, `shutil.which`, `os.listdir`, `os.path.isdir`, `os.path.exists` and environment variables are not modelled as operations. They are recorded observations: availability flags, output text, listings and failure messages.
  - The listing `extract_frames` counts and the one `list_frame_files` sorts are two separate observations, because the directory may change between them.
- Pillow's pixel operations are not modelled. The resampling filter (BICUBIC in either spelling), image content and the `with` block's closing are left out; an enhancer is the list of operations it applies.
- The `ImageFilter is not None` guards in the enhancers are not modelled separately. `ImageFilter` is imported together with `Image`, so they hold whenever Pillow is present.
- The `try`/`except` around the interpolation target is not modelled, because multiplying two reals cannot fail.
- Temporary upscaled files are never removed by the code, and the model does not track files at all.
- The HTTP routes, `utils/config.py`, health probing and the application factory are not part of this model.

## Findings

| source | as written | input that shows it | evidently intended | confidence | as-written member | corrected member |
|---|---|---|---|---|---|---|
| backend/app/services/pipeline.py:78-85 | both upscale call sites (lines 78-85 and 136-143) pass `realesrgan_model=`, which `upscale_image` (backend/app/services/image_upscaler.py:64-70) does not declare, so every call raises `TypeError` before upscaling | an image job with options `{"scale": 2}`, or a video job with at least one listed frame and no cancellation before it | call `upscale_image` with its declared arguments only, so the upscaler runs | not executed | UpscaleBinding.AsWrittenCall, PipelineLaws.AsWrittenImageFails, PipelineLaws.AsWrittenVideoFails, JobRunner.AsWrittenImageJobFails | UpscaleBinding.CorrectedCall, PipelineLaws.CorrectedImageSucceeds |
