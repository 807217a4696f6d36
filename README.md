# VidProc checkpoint/resume model

VidProc stabilizes every video file in the current folder with ffmpeg and
joins the results into one MP4 file, by default `out.mp4`. The work is slow,
so the program keeps checkpoints in the sub-folder `vidproc`. A run that stops
part-way is resumed by the next run from the first unfinished step. For each
input with base name `<base>` there are two checkpoints:

- `vidproc/<base>.trf` means the analysis pass is done;
- `vidproc/<base>.mp4` means the stabilized video is done.

The tools themselves work on scratch files with fixed names: `transforms.trf`
and `vidproc/temp_stabilized.mp4`. The concatenation reads the listing
`files.txt`. These three files are deleted when a run starts and when it ends.

The model has five modules:

- `Names`: the constants and the path derivation. This covers
  `lastIndexOf`/`substring` on the file name, `<base>.mp4` and `<base>.trf`
  under the work folder, and the case-insensitive output-suffix check.
- `Order`: the lexicographic order of file names and the sort the directory
  listing goes through. Two sorted listings of the same names are the same,
  so the join order does not depend on how the folder enumerates its files.
- `FileSystem`: the world the program sees.
  - A `World` is a map from paths to contents, plus a log of every call the
    program issues: delete, copy, move, create folder, write the listing, run
    a tool.
  - Each file helper (`deleteFile`, `copyFile`, `moveFile`, `createFolder`,
    writing the listing, `runCommand`, `listFilesInFolder`) is a method of
    the class `Disk`. Each method is proved equal to a function on `World`.
  - Copy and move behave like `Files.copy`/`Files.move` without options:
    - a missing source throws `NoSuchFileException`;
    - copying or moving a file onto itself does nothing;
    - an existing target throws `FileAlreadyExistsException`.
  - A tool run is described only by what it leaves at its output path, an
    `Option<Content>`. Its exit status is never checked.
- `Checkpoint`: `cleanup` and the per-video state machine
  `createStabilizedVideo`.
  - The state machine has three branches: skip, restore the `.trf`
    checkpoint, or analyse and commit it by copying.
  - The transform then runs, and its result is moved into place.
  - The durable checkpoints are the files under `vidproc/` other than the
    scratch video. The lemmas prove that no call ever deletes or overwrites
    one, and that a call deletes only scratch files.
- `Orchestrator`: `main`.
  - The work is, in order: cleanup; the guards on the output name; the
    sorted listing; the work folder; the loop that stabilizes the inputs one
    by one until the first exception; the listing and the concatenation; the
    cleanup in `finally`.
  - `Run` is proved equal to the function `RunSpec`. The lemmas about
    `RunSpec` state the guard order and that checkpoints survive every run.
    They also state that scratch files never survive a run, that inputs with
    a `.trf` checkpoint are never analysed again, and what goes into the
    join manifest.

Each file operation of the program is a method on `Disk`. `Cleanup`,
`CreateStabilizedVideo`, `StabilizeAll`, `JoinStabilizedVideos` and `Run`
are methods of their modules that take a `Disk`. Each method's
postcondition equates the new state, and the value it returns or the
exception it throws, with a specification function of the old state. The
properties of the program are lemmas about those functions.

## Model

| member | source | states |
|---|---|---|
| Names.LastIndexOf | VidProc.java:225 | The result is -1 or a position holding the character, and no later position holds it. |
| Names.BaseName | VidProc.java:225-226 | None exactly when the name has no '.' (Java's `substring(0, -1)` throws). Otherwise it is the prefix before the last '.'. |
| Names.Suffix | VidProc.java:81-82 | None exactly when the name has no '.'. Otherwise it is the tail from the last '.' on, with no further '.'. |
| Names.FileName | VidProc.java:81 | `getFileName`: the tail of the path after its last separator, which holds no separator. |
| Names.FileNameUnique | VidProc.java:81 | A separator-free tail of a path that follows its last separator, or is the whole path, is the path's file name. |
| Names.CollapseSeparators | VidProc.java:79 | No separator follows another in the result. A string without repeated separators is kept. The first and last characters are kept. Which string results is decided by `CollapseDropsRepeat`. |
| Names.CollapseDropsRepeat | VidProc.java:79 | A doubled separator anywhere in a string collapses as a single one would. Removing repeats one at a time reaches a string that is kept, so this decides the result for every input. |
| Names.PathsGet | VidProc.java:79 | `Paths.get` on Unix: the result has no repeated separator and no trailing one (other than the root `/`). An argument already in that form is kept as it is. Which path results is decided by `PathsGetDropsRepeat` and `TrailingSeparatorPath`. |
| Names.PathsGetDropsRepeat | VidProc.java:79 | `Paths.get` treats a doubled separator anywhere in the argument as a single one. |
| Names.ExistencePath | VidProc.java:88 | The file `Files.exists` looks up: a tail of the path with no leading `./`, and with the same file name as the path. A path without a leading `./` is looked up as it is. |
| Names.CurrentFolderPath | VidProc.java:79-88 | For a normal relative path, `./<path>` is kept by `Paths.get`, has the same file name, and resolves to the same file as `<path>`. |
| Names.TrailingSeparatorPath | VidProc.java:79 | `Paths.get` drops a trailing separator from a normal relative path. |
| Names.SplitAtLastDot | VidProc.java:225-226 | Base name and suffix concatenate back to the name. |
| Names.OutputSuffixCheck | VidProc.java:81-83 | The suffix equals ".mp4" ignoring case exactly when the name's last four characters do. |
| Names.EqualsIgnoreCase | VidProc.java:83 | Two strings are equal ignoring case exactly when their lower-case forms are equal. Equal strings always are. |
| Names.BaseNameOfPlainName | VidProc.java:225-228 | The base name of a name without a separator has no separator, so `<base>.mp4` lies directly in the work folder. |
| Names.FileNameInWorkFolder | VidProc.java:228 | The file name of `vidproc/<name>` is `<name>`. |
| Names.StabilizedPath | VidProc.java:228 | The stabilized video of an input lies in the work folder. |
| Names.TransformsPath | VidProc.java:244 | The `.trf` checkpoint of an input lies in the work folder. |
| Names.ArtifactFileNames | VidProc.java:228-244 | For a base name without a separator, the artifacts' file names are `<base>.mp4` and `<base>.trf`. |
| Names.ArtifactPaths | VidProc.java:228-244 | Both artifact paths lie under `vidproc/`. A `.mp4` path never equals a `.trf` path. Each kind is injective in the base name. The `.trf` path is never the scratch video. |
| Names.TempStabilizedCollision | VidProc.java:228-267 | An input's stabilized path equals the scratch video path exactly when its base name is `temp_stabilized`. |
| Names.ScratchOutsideWorkFolder | VidProc.java:131-133 | `files.txt` and `transforms.trf` lie outside the work folder. The scratch video lies inside it. |
| Order.Sort | VidProc.java:186 | The result is sorted and a permutation of the input. |
| Order.SortedUnique | VidProc.java:186 | Two sorted sequences with the same elements are equal. |
| Order.SortedElements | VidProc.java:186 | The sorted listing of a set: sorted, and holds each member exactly once. |
| FileSystem.AfterDelete | VidProc.java:171-176 | `deleteIfExists`: the path is absent afterwards and every other file is unchanged. |
| FileSystem.AfterCopy | VidProc.java:160-163 | No existing file is removed or changed. When no error is raised, the target holds the source's content. The target is the only file that may appear. |
| FileSystem.AfterMove | VidProc.java:147-150 | Only the source may disappear and only the target may appear. On success the target holds the source's content and a distinct source is gone. On error nothing changes. |
| FileSystem.AfterWrite | VidProc.java:310-316 | The listing holds exactly the given lines and every other file is unchanged. |
| FileSystem.AfterRun | VidProc.java:335-342 | A tool run changes at most its output path: it holds the produced content if the tool produced one. |
| FileSystem.Disk.DeleteFile | VidProc.java:171-176 | The new state is `AfterDelete` of the old. |
| FileSystem.Disk.CopyFile | VidProc.java:160-163 | The error is `NoSuchFile(src)`, else `FileAlreadyExists(dest)` for a distinct existing target, else none. The new state is `AfterCopy`. |
| FileSystem.Disk.MoveFile | VidProc.java:147-150 | The same error cases as copy. The new state is `AfterMove`. |
| FileSystem.Disk.CreateFolder | VidProc.java:197-208 | Fails with `FileAlreadyExists` exactly when a regular file has the folder's name. The new state is `AfterMakeFolder`. |
| FileSystem.Disk.WriteLines | VidProc.java:310-316 | The new state is `AfterWrite`. |
| FileSystem.Disk.RunCommand | VidProc.java:335-342 | The new state is `AfterRun`. |
| FileSystem.Disk.ListFilesInFolder | VidProc.java:184-189 | Whatever order the folder enumerates its files in, the result is the unique sorted listing of the regular files. |
| Checkpoint.CleanupSpec | VidProc.java:129-137 | Cleanup removes the three scratch files, changes nothing else, and issues exactly their three deletes. |
| Checkpoint.Cleanup | VidProc.java:129-137 | The new state is `CleanupSpec` of the old. |
| Checkpoint.CleanupKeepsDurable | VidProc.java:129-137 | Cleanup deletes or changes no checkpoint. |
| Checkpoint.CleanupTwice | VidProc.java:129-137 | Two cleanups in a row leave the files as one does and issue only their six deletes. |
| Checkpoint.CreateStabilizedVideo | VidProc.java:219-287 | The new state and the returned path or thrown error equal `CreateStabilizedVideoSpec` of the old state. |
| Checkpoint.NoDotFails | VidProc.java:225-226 | An input without a '.' throws `IndexOutOfBounds` and changes nothing. |
| Checkpoint.SkipWhenStabilized | VidProc.java:228-234 | When `vidproc/<base>.mp4` exists, the call returns it and the world, log included, is unchanged. |
| Checkpoint.PrepareLog | VidProc.java:239-257 | The calls are a restore copy if the `.trf` exists, else an analysis then a commit copy. The call succeeds exactly when the `.trf` existed or the analysis produced output. Otherwise it throws `NoSuchFile(transforms.trf)`. |
| Checkpoint.PrepareFacts | VidProc.java:247-257 | On success the `.trf` checkpoint exists. An existing one is unchanged; a new one holds the analysis output. No checkpoint is lost, and only `transforms.trf` and the `.trf` change. |
| Checkpoint.ProduceLog | VidProc.java:266-275 | The calls are: delete the scratch video, transform, move, then delete `transforms.trf` on success. The call succeeds, returning the stabilized path, exactly when the transform produced output. Otherwise it throws `NoSuchFile(temp_stabilized)`. |
| Checkpoint.ProduceFacts | VidProc.java:266-275 | On failure the stabilized video is absent. On success it holds the transform output and both scratch files are gone. No checkpoint is lost, and only the scratch files and the stabilized path change. |
| Checkpoint.WorkOps | VidProc.java:239-275 | The calls of a call that does the work delete only scratch files. They include the analysis exactly when the `.trf` was not restored. They include the transform exactly when the `.trf` was restored or analysed. |
| Checkpoint.WorkFacts | VidProc.java:239-275 | A call that does the work ends at the prepare stage when that stage throws. Otherwise it continues into the transform stage with the stabilized video still absent. |
| Checkpoint.CallLog | VidProc.java:239-275 | The log of a call that does the work is the old log followed by `WorkOps`. |
| Checkpoint.CallOutcome | VidProc.java:219-287 | For an input with a '.', every outcome holds exactly under its own condition. It returns `<base>.mp4`, which then exists, when the video already existed, or the `.trf` was restored or analysed and the transform produced output. It throws `NoSuchFile(transforms.trf)` when it neither restored nor analysed. It throws `NoSuchFile(temp_stabilized)` when the transform produced nothing. |
| Checkpoint.SuccessfulCall | VidProc.java:239-283 | After a successful call the video holds the transform output. The `.trf` holds the old checkpoint or the new analysis. `transforms.trf` is gone, and so is the scratch video unless it is the video itself. |
| Checkpoint.CallFrame | VidProc.java:219-287 | A call never deletes or overwrites a checkpoint and deletes only scratch files. It changes nothing for an input without '.'. It touches only the scratch files and the input's two artifacts. |
| Checkpoint.SameBaseSkipped | VidProc.java:225-234 | Once a call has succeeded, a call on another input with the same base name returns the same path and does nothing. |
| Checkpoint.ResumeAfterTransformFailure | VidProc.java:236-275 | After a transform failure and a cleanup, a new call does not analyse again. It succeeds exactly when the transform produces output. |
| Checkpoint.WorkOpsAnalyses | VidProc.java:247-257 | The only analysis a call issues is of its own input, and only when the checkpoint was not restored. |
| Checkpoint.AnalysesOnlyUncheckpointed | VidProc.java:228-257 | A call analyses only its own input, and only when neither its `.mp4` nor its `.trf` checkpoint existed. |
| Checkpoint.WorkOpsTransforms | VidProc.java:266-275 | The only transform a call that does the work issues is of its own input. |
| Checkpoint.TransformsOnlyUnstabilized | VidProc.java:228-275 | A call transforms only its own input, and only when its stabilized video did not exist. |
| Orchestrator.StabilizeAll | VidProc.java:99-101 | The loop's new state and its collected paths, or the first exception, equal `StabilizeAllSpec`. |
| Orchestrator.AbortIsFinal | VidProc.java:99-101 | After the first exception the remaining inputs change nothing. |
| Orchestrator.StabilizedInOrder | VidProc.java:99-101 | On success the paths are one per input, in input order, each the input's `<base>.mp4`. |
| Orchestrator.LoopFailures | VidProc.java:99-101 | The loop throws only `NoSuchFile(transforms.trf)`, `NoSuchFile(temp_stabilized)`, or `IndexOutOfBounds` for an input without a '.'. |
| Orchestrator.StabilizeAllFrame | VidProc.java:99-101 | The loop never deletes or overwrites a checkpoint and deletes only scratch files. |
| Orchestrator.CheckpointedNotAnalysed | VidProc.java:99-101 | An input whose `.trf` exists when the loop starts is never analysed. |
| Orchestrator.StabilizedNotTransformed | VidProc.java:99-101 | An input whose stabilized video exists when the loop starts, at a path other than the scratch video's, is never transformed. |
| Orchestrator.StabilizedVideosExist | VidProc.java:99-101 | On success every collected path exists, except one equal to the scratch video path. |
| Orchestrator.AllDoneIsNoOp | VidProc.java:99-101 | When every input's video exists, the loop succeeds and changes nothing. |
| Orchestrator.ManifestLine | VidProc.java:311-313 | A path directly inside the work folder appears in its line as `file '<path>'`. |
| Orchestrator.DirectlyInWorkFolder | VidProc.java:313 | A path directly inside the work folder is the folder, a separator and its file name, so the listing line names it as it is. |
| Orchestrator.Manifest | VidProc.java:310-313 | One line per path, in the same order. |
| Orchestrator.ManifestLineOfStabilized | VidProc.java:311-313 | For a stabilized video the line is `file 'vidproc/<base>.mp4'`. |
| Orchestrator.JoinedManifest | VidProc.java:311-313 | The manifest of the inputs' stabilized paths names each path on its own line. |
| Orchestrator.JoinStabilizedVideos | VidProc.java:297-326 | The new state equals `JoinSpec` of the old. |
| Orchestrator.JoinFrame | VidProc.java:304-320 | The join issues exactly: delete the listing, write the manifest, concatenate. It keeps every checkpoint and deletes only scratch files. |
| Orchestrator.Outcome.ExitCode | VidProc.java:110-121 | The exit status is 1 exactly when an exception reached the handler, and 0 otherwise. |
| Orchestrator.OutputPath | VidProc.java:79 | The output path is the first argument in the normal form `Paths.get` gives it, or `out.mp4` without arguments. An argument in normal form is kept as it is. Repeated, trailing and leading `./` forms are settled by `RepeatedSeparatorArgument`, `TrailingSeparatorArgument` and `CurrentFolderArgument`. |
| Orchestrator.EarlyOutcome | VidProc.java:81-91 | A guard that ends the run early never reports a joined run. |
| Orchestrator.GuardOutcome | VidProc.java:81-91 | The guards on the output's file name and on the file its path resolves to never report a joined run. |
| Orchestrator.GuardsSeeNameAndFile | VidProc.java:79-91 | Two output arguments with the same file name that resolve to the same file end the run the same way. |
| Orchestrator.CurrentFolderArgument | VidProc.java:79-91 | An output argument `./<path>` ends the run the same way as `<path>`. |
| Orchestrator.TrailingSeparatorArgument | VidProc.java:79-91 | An output argument `<path>/` ends the run the same way as `<path>`. |
| Orchestrator.RepeatedSeparatorArgument | VidProc.java:79-91 | An output argument with a doubled separator, such as `a//out.mp4`, ends the run the same way as the argument with a single one. |
| Orchestrator.Guards | VidProc.java:81-91 | In order: no '.' in the file name throws; a non-".mp4" suffix returns; an output whose resolved file exists returns; otherwise the work proceeds. |
| Orchestrator.EarlyReturn | VidProc.java:74-91 | A run ended by a guard reports that guard's outcome. Its only effects are the cleanup at the start and the cleanup in `finally`. |
| Orchestrator.WorkOn | VidProc.java:94-103 | The work after the guards either joins or fails. A joined work names the listed inputs and has one stabilized path per input. |
| Orchestrator.WorkOnLog | VidProc.java:94-103 | The work's calls are: create the folder; then, unless that failed, the loop's calls; then, unless the loop threw, the join's delete, write and concatenation. |
| Orchestrator.WorkCommands | VidProc.java:94-103 | An analysis or transform issued by the work was issued by the loop, after the folder was created. |
| Orchestrator.WorkStartsWithFolder | VidProc.java:94-101 | The first call after the guards creates the work folder. |
| Orchestrator.WorkFrame | VidProc.java:94-103 | The work keeps every checkpoint and deletes only scratch files. |
| Orchestrator.WorkNoReanalysis | VidProc.java:94-103 | The work never analyses an input whose `.trf` exists. |
| Orchestrator.WorkNoRetransform | VidProc.java:94-103 | The work never transforms an input whose stabilized video exists, at a path other than the scratch video's. |
| Orchestrator.JoinedWork | VidProc.java:99-103 | A joined work joined the inputs' stabilized paths in input order, with one manifest line per path. The concatenation was its last call. |
| Orchestrator.BodyJoined | VidProc.java:81-103 | The same for the part of `main` between its cleanups. |
| Orchestrator.Run | VidProc.java:67-124 | The new state and the outcome equal `RunSpec` of the old state. |
| Orchestrator.RunFrame | VidProc.java:67-124 | A run keeps every checkpoint, deletes only scratch files, and leaves no scratch file behind, whatever its outcome. It never analyses an input whose `.trf` existed at the start. It never transforms an input whose stabilized video existed at the start, unless that video is at the scratch path. |
| Orchestrator.JoinedInSortedOrder | VidProc.java:67-124 | A joined run took the sorted regular files, each once, and joined their stabilized paths in that order. The manifest is `file 'vidproc/<base>.mp4'` per input. The concatenation came just before the final cleanup. |

## Behaviour of the code worth knowing

These are places where the code behaves differently from what its
documentation suggests. The model follows the code throughout.

- The exit status of ffmpeg is logged but never checked (VidProc.java:340-341). A failed
  analysis or transform is noticed only because its output file is missing,
  and the next copy or move throws `NoSuchFileException`. A failed
  concatenation is not noticed at all: the run ends with status 0.
- An output name whose suffix is not `.mp4` returns normally, with exit
  status 0 (VidProc.java:83-86). An output name without any '.' throws from
  `substring`, with status 1.
- A `.trf` checkpoint is reused without checking that it belongs to the
  current content of the input.
- An input whose base name is `temp_stabilized` is stored at the scratch
  video's own path. The next input's transform step deletes it
  (`TempStabilizedCollision`, `StabilizedVideosExist`). If no other input
  follows, the cleanup in `finally` (VidProc.java:133) deletes it, so it
  never survives a run as a checkpoint (`RunFrame`).
- Cleanup also deletes a user's own `files.txt` or `transforms.trf` in the
  current folder. This happens before the listing, so neither file is ever
  an input.
- Two inputs with the same base name (`a.mp4`, `a.mov`) share one
  stabilized video. The second is skipped (`SameBaseSkipped`) and the video
  appears twice in the manifest.
- The output's existence is checked on the whole path, after `Paths.get`
  has normalised it and with a leading `./` resolved. The concatenation
  writes only the path's file name, in the current folder.

## Left out

- ffmpeg itself: the analysis, transform and concatenation are oracles that
  either leave their output file with some content or do not.
- The process handling of `runCommand`: starting the process, inheriting its
  I/O, waiting for it, and the exit status.
- The branch that destroys `ffmpegProcess` on failure: nothing ever assigns
  that field, so the branch never runs.
- Logging, `timingStats`, the clock and their printing, and `System.exit`.
  `Run` returns the outcome, and `ExitCode` gives the status.
- `PrintWriter` in append mode writing line by line: the listing is written
  whole, which is the same after the preceding delete.
- Directories in general: the only folder effect is that `createFolder`
  fails when a regular file named `vidproc` exists. A directory at a
  checkpoint path is not modelled.
- I/O failures other than missing and existing files, and a crash part-way
  through a call: a tool that produces nothing stands for both. An exception
  inside `cleanup` is not modelled.
- Wrapping of exceptions in `RuntimeException`: the model keeps the
  underlying exception.
- Names.EqualsIgnoreCase: folds ASCII letters only, while Java folds all of
  Unicode.
- Order.Sort: compares names character by character. Java compares the
  listed `./name` paths, which gives the same order since all share the
  `./` prefix.
- FileSystem.Disk.ListFilesInFolder: returns plain names where Java returns
  `./name` paths. Every use in the program goes through `getFileName`.
- FileSystem.Disk.CreateFolder: records that the folder was created but
  keeps no folder state.
- Orchestrator.Outcome.ExitCode: the status when `main` throws past its
  handler (an error in `finally`) is not modelled.
- Names.ExistencePath: resolves only leading `./` segments. A `.` segment
  later in the path, a `..` segment, an absolute path and a symbolic link
  are looked up as written, so an output named that way is taken not to
  exist.
- Orchestrator.OutputPath: for the root path `/`, Java's `getFileName` is
  null and `main` fails with a `NullPointerException`. The model reports
  the failure of a name without '.'; both end with status 1.
