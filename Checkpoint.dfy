/** The per-video checkpoint/resume state machine (`createStabilizedVideo`)
 *  and the scratch-file cleanup that runs around every run. The durable
 *  checkpoints are the files under the work folder: `<base>.trf` records that
 *  analysis finished, `<base>.mp4` that stabilization finished. */
module Checkpoint {
  import opened Names
  import opened FileSystem

  /** A checkpoint artifact: a file in the work folder other than the
   *  transform step's scratch output. */
  predicate Durable(p: Path) {
    WORK_PREFIX <= p && p != TEMP_STABILIZED
  }

  /** No checkpoint of `w` is deleted or overwritten on the way to `w'`. */
  ghost predicate KeepsDurable(w: World, w': World) {
    forall p :: p in w.files && Durable(p) ==> p in w'.files && w'.files[p] == w.files[p]
  }

  /** Every file other than `exempt` is as it was, present or absent. */
  ghost predicate Unchanged(w: World, w': World, exempt: set<Path>) {
    forall p :: p !in exempt ==>
      (p in w'.files <==> p in w.files) && (p in w.files ==> w'.files[p] == w.files[p])
  }

  /** Every delete among `ops` is of one of `paths`. */
  predicate DeletesOnly(ops: seq<Op>, paths: set<Path>) {
    forall i :: 0 <= i < |ops| && ops[i].Delete? ==> ops[i].path in paths
  }

  lemma DeletesOnlyConcat(ops: seq<Op>, ops': seq<Op>, paths: set<Path>)
    requires DeletesOnly(ops, paths) && DeletesOnly(ops', paths)
    ensures DeletesOnly(ops + ops', paths)
  {
    forall i | 0 <= i < |ops + ops'| && (ops + ops')[i].Delete?
      ensures (ops + ops')[i].path in paths
    {
      if i >= |ops| {
        assert (ops + ops')[i] == ops'[i - |ops|];
      }
    }
  }

  /** The paths `cleanup` deletes. */
  const SCRATCH: set<Path> := {LISTING_FILENAME, TEMP_TRANSFORMS_FILE, TEMP_STABILIZED}

  const CLEANUP_OPS: seq<Op> :=
    [Delete(LISTING_FILENAME), Delete(TEMP_TRANSFORMS_FILE), Delete(TEMP_STABILIZED)]

  /** `cleanup`: the listing file and both scratch files are gone, nothing
   *  else is touched. */
  function CleanupSpec(w: World): (w': World)
    ensures w'.log == w.log + CLEANUP_OPS
    ensures forall p :: p in SCRATCH ==> p !in w'.files
    ensures Unchanged(w, w', SCRATCH)
  {
    AfterDelete(AfterDelete(AfterDelete(w, LISTING_FILENAME), TEMP_TRANSFORMS_FILE), TEMP_STABILIZED)
  }

  method Cleanup(disk: Disk)
    modifies disk
    ensures disk.State() == CleanupSpec(old(disk.State()))
  {
    disk.DeleteFile(LISTING_FILENAME);
    disk.DeleteFile(TEMP_TRANSFORMS_FILE);
    disk.DeleteFile(TEMP_STABILIZED);
  }

  /** Two cleanups in a row, as a run that returns early does them, leave the
   *  files as one cleanup does and issue nothing but their deletes. */
  lemma CleanupTwice(w: World)
    ensures CleanupSpec(CleanupSpec(w)).files == CleanupSpec(w).files
    ensures NewOps(w, CleanupSpec(CleanupSpec(w))) == CLEANUP_OPS + CLEANUP_OPS
  {
    NewOpsAppended(w, CleanupSpec(CleanupSpec(w)), CLEANUP_OPS + CLEANUP_OPS);
  }

  /** Cleanup never removes a checkpoint. */
  lemma CleanupKeepsDurable(w: World)
    ensures KeepsDurable(w, CleanupSpec(w))
  {
    ScratchOutsideWorkFolder();
  }

  /** What the external tool leaves behind when run on one input: the
   *  analysis run's `transforms.trf` and the transform run's video. */
  datatype Tools = Tools(analysis: Option<Content>, transform: Option<Content>)

  /** A world together with what the operation returned or threw. */
  datatype Step<T> = Step(world: World, result: Result<T>)

  function Thrown(e: Option<Error>): Result<()> {
    if e.Some? then Err(e.value) else Ok(())
  }

  /** The preparation step of `createStabilizedVideo`: restore
   *  `transforms.trf` from the checkpoint, or analyse the input and commit
   *  `transforms.trf` to the checkpoint by copying it. */
  function PrepareTransforms(w: World, input: Path, transforms: Path, tools: Tools): Step<()> {
    if transforms in w.files then
      Step(AfterCopy(w, transforms, TEMP_TRANSFORMS_FILE),
           Thrown(TransferError(w, transforms, TEMP_TRANSFORMS_FILE)))
    else
      var analysed := AfterRun(w, Analyse(input), TEMP_TRANSFORMS_FILE, tools.analysis);
      Step(AfterCopy(analysed, TEMP_TRANSFORMS_FILE, transforms),
           Thrown(TransferError(analysed, TEMP_TRANSFORMS_FILE, transforms)))
  }

  /** The production step of `createStabilizedVideo`: run the transform into
   *  the scratch video, move it to the stabilized path and delete
   *  `transforms.trf`. */
  function ProduceStabilized(w: World, input: Path, stabilized: Path, tools: Tools): Step<Path> {
    var transformed := AfterRun(AfterDelete(w, TEMP_STABILIZED), Transform(input, TEMP_STABILIZED),
                                TEMP_STABILIZED, tools.transform);
    var moved := AfterMove(transformed, TEMP_STABILIZED, stabilized);
    var moveError := TransferError(transformed, TEMP_STABILIZED, stabilized);
    if moveError.Some? then Step(moved, Err(moveError.value))
    else Step(AfterDelete(moved, TEMP_TRANSFORMS_FILE), Ok(stabilized))
  }

  /** `createStabilizedVideo` as a function of the world it starts in. */
  function CreateStabilizedVideoSpec(w: World, input: Path, tools: Tools): Step<Path> {
    match BaseName(input)
    case None => Step(w, Err(IndexOutOfBounds(input)))
    case Some(base) =>
      var stabilized := StabilizedPath(base);
      if stabilized in w.files then Step(w, Ok(stabilized))
      else
        var prepared := PrepareTransforms(AfterDelete(w, TEMP_TRANSFORMS_FILE), input, TransformsPath(base), tools);
        if prepared.result.Err? then Step(prepared.world, Err(prepared.result.error))
        else ProduceStabilized(prepared.world, input, stabilized, tools)
  }

  method CreateStabilizedVideo(disk: Disk, input: Path, tools: Tools) returns (r: Result<Path>)
    modifies disk
    ensures Step(disk.State(), r) == CreateStabilizedVideoSpec(old(disk.State()), input, tools)
  {
    ghost var start := disk.State();
    var base := BaseName(input);
    if base.None? {
      return Err(IndexOutOfBounds(input));
    }
    var stabilized := StabilizedPath(base.value);
    if stabilized in disk.files {
      return Ok(stabilized);
    }
    disk.DeleteFile(TEMP_TRANSFORMS_FILE);
    ghost var cleared := disk.State();
    var transforms := TransformsPath(base.value);
    var err;
    if transforms in disk.files {
      err := disk.CopyFile(transforms, TEMP_TRANSFORMS_FILE);
    } else {
      disk.RunCommand(Analyse(input), TEMP_TRANSFORMS_FILE, tools.analysis);
      err := disk.CopyFile(TEMP_TRANSFORMS_FILE, transforms);
    }
    ghost var prepared := PrepareTransforms(cleared, input, transforms, tools);
    assert Step(disk.State(), Thrown(err)) == prepared;
    if err.Some? {
      return Err(err.value);
    }
    assert CreateStabilizedVideoSpec(start, input, tools) ==
           ProduceStabilized(prepared.world, input, stabilized, tools);
    disk.DeleteFile(TEMP_STABILIZED);
    disk.RunCommand(Transform(input, TEMP_STABILIZED), TEMP_STABILIZED, tools.transform);
    ghost var transformed := disk.State();
    err := disk.MoveFile(TEMP_STABILIZED, stabilized);
    if err.Some? {
      return Err(err.value);
    }
    disk.DeleteFile(TEMP_TRANSFORMS_FILE);
    return Ok(stabilized);
  }

  /** The calls restoring or committing the analysis checkpoint issues, and
   *  when it throws, starting without `transforms.trf`. */
  lemma PrepareLog(w: World, input: Path, transforms: Path, tools: Tools)
    requires TEMP_TRANSFORMS_FILE !in w.files && Durable(transforms)
    ensures var s := PrepareTransforms(w, input, transforms, tools);
            s.world.log == w.log + (if transforms in w.files then [Copy(transforms, TEMP_TRANSFORMS_FILE)]
                                    else [Exec(Analyse(input)), Copy(TEMP_TRANSFORMS_FILE, transforms)]) &&
            (s.result.Ok? <==> transforms in w.files || tools.analysis.Some?) &&
            (s.result.Err? ==> s.result.error == NoSuchFile(TEMP_TRANSFORMS_FILE))
  {
    ScratchOutsideWorkFolder();
  }

  /** What restoring or committing the analysis checkpoint does to the files:
   *  the checkpoint exists afterwards unless the call threw, every checkpoint
   *  is kept, and only `transforms.trf` and the checkpoint are touched. */
  lemma PrepareFacts(w: World, input: Path, transforms: Path, tools: Tools)
    requires TEMP_TRANSFORMS_FILE !in w.files && Durable(transforms)
    ensures var s := PrepareTransforms(w, input, transforms, tools);
            (s.result.Ok? ==> transforms in s.world.files) &&
            (transforms in w.files ==> s.world.files[transforms] == w.files[transforms]) &&
            (transforms !in w.files && tools.analysis.Some? ==>
               s.world.files[transforms] == tools.analysis.value) &&
            KeepsDurable(w, s.world) &&
            Unchanged(w, s.world, {TEMP_TRANSFORMS_FILE, transforms})
  {
    ScratchOutsideWorkFolder();
    PrepareLog(w, input, transforms, tools);
  }

  /** The calls producing the stabilized video issues, and when it throws,
   *  starting where the video is absent. */
  lemma ProduceLog(w: World, input: Path, stabilized: Path, tools: Tools)
    requires stabilized !in w.files && WORK_PREFIX <= stabilized
    ensures var s := ProduceStabilized(w, input, stabilized, tools);
            s.world.log == w.log + [Delete(TEMP_STABILIZED), Exec(Transform(input, TEMP_STABILIZED)),
                                    Move(TEMP_STABILIZED, stabilized)]
                                 + (if s.result.Ok? then [Delete(TEMP_TRANSFORMS_FILE)] else []) &&
            (s.result.Ok? <==> tools.transform.Some?) &&
            (s.result.Ok? ==> s.result.value == stabilized) &&
            (s.result.Err? ==> s.result.error == NoSuchFile(TEMP_STABILIZED))
  {
  }

  /** What producing the stabilized video does to the files: the video holds
   *  the transform's output afterwards unless the call threw, every
   *  checkpoint is kept, and only the scratch files and the stabilized path
   *  are touched. */
  lemma ProduceFacts(w: World, input: Path, stabilized: Path, tools: Tools)
    requires stabilized !in w.files && WORK_PREFIX <= stabilized
    ensures var s := ProduceStabilized(w, input, stabilized, tools);
            (s.result.Err? ==> stabilized !in s.world.files) &&
            (s.result.Ok? ==>
               stabilized in s.world.files && s.world.files[stabilized] == tools.transform.value &&
               TEMP_TRANSFORMS_FILE !in s.world.files &&
               (stabilized != TEMP_STABILIZED ==> TEMP_STABILIZED !in s.world.files)) &&
            KeepsDurable(w, s.world) &&
            Unchanged(w, s.world, {TEMP_TRANSFORMS_FILE, TEMP_STABILIZED, stabilized})
  {
    ScratchOutsideWorkFolder();
    ProduceLog(w, input, stabilized, tools);
  }

  /** The calls a call that does the work issues, stage by stage. */
  lemma WorkFacts(w: World, input: Path, tools: Tools)
    requires BaseName(input).Some? && StabilizedPath(BaseName(input).value) !in w.files
    ensures var base := BaseName(input).value;
            var cleared := AfterDelete(w, TEMP_TRANSFORMS_FILE);
            var prepared := PrepareTransforms(cleared, input, TransformsPath(base), tools);
            var s := CreateStabilizedVideoSpec(w, input, tools);
            TEMP_TRANSFORMS_FILE !in cleared.files && Durable(TransformsPath(base)) &&
            (prepared.result.Err? ==> s == Step(prepared.world, Err(prepared.result.error))) &&
            (prepared.result.Ok? ==>
               s == ProduceStabilized(prepared.world, input, StabilizedPath(base), tools) &&
               StabilizedPath(base) !in prepared.world.files && WORK_PREFIX <= StabilizedPath(base))
  {
    var base := BaseName(input).value;
    ScratchOutsideWorkFolder();
    ArtifactPaths(base, base);
    var cleared := AfterDelete(w, TEMP_TRANSFORMS_FILE);
    PrepareLog(cleared, input, TransformsPath(base), tools);
    PrepareFacts(cleared, input, TransformsPath(base), tools);
  }

  /** An input name without a '.' makes the call throw before it touches
   *  anything. */
  lemma NoDotFails(w: World, input: Path, tools: Tools)
    requires '.' !in input
    ensures CreateStabilizedVideoSpec(w, input, tools) == Step(w, Err(IndexOutOfBounds(input)))
  {
  }

  /** An input whose stabilized video exists is done: the call returns its
   *  path and issues no delete, copy, move or command. */
  lemma SkipWhenStabilized(w: World, input: Path, tools: Tools)
    requires '.' in input && StabilizedPath(BaseName(input).value) in w.files
    ensures CreateStabilizedVideoSpec(w, input, tools) == Step(w, Ok(StabilizedPath(BaseName(input).value)))
  {
  }

  /** The calls that clear `transforms.trf` and then restore it from the
   *  checkpoint or analyse the input and commit the checkpoint. */
  function PrepareOps(input: Path, transforms: Path, restored: bool): seq<Op> {
    [Delete(TEMP_TRANSFORMS_FILE)] +
    (if restored then [Copy(transforms, TEMP_TRANSFORMS_FILE)]
     else [Exec(Analyse(input)), Copy(TEMP_TRANSFORMS_FILE, transforms)])
  }

  /** The calls that produce the stabilized video and, once it is in place,
   *  delete `transforms.trf`. */
  function ProduceOps(input: Path, stabilized: Path, transformed: bool): seq<Op> {
    [Delete(TEMP_STABILIZED), Exec(Transform(input, TEMP_STABILIZED)), Move(TEMP_STABILIZED, stabilized)] +
    (if transformed then [Delete(TEMP_TRANSFORMS_FILE)] else [])
  }

  /** The calls a call that does the work issues: the transform stage is
   *  reached only when the checkpoint was restored or the analysis left its
   *  output. Only the scratch files are ever deleted. */
  function WorkOps(input: Path, transforms: Path, stabilized: Path, restored: bool, analysed: bool,
                   transformed: bool): (ops: seq<Op>)
    ensures DeletesOnly(ops, {TEMP_TRANSFORMS_FILE, TEMP_STABILIZED})
    ensures Exec(Analyse(input)) in ops <==> !restored
    ensures Exec(Transform(input, TEMP_STABILIZED)) in ops <==> restored || analysed
  {
    PrepareOps(input, transforms, restored) +
    (if !restored && !analysed then [] else ProduceOps(input, stabilized, transformed))
  }

  /** The calls issued by a call that does the work: the analysis runs only
   *  when the `.trf` checkpoint is missing, the transform only once
   *  `transforms.trf` is in place, and the scratch transforms are deleted
   *  only after the video has been moved into place. */
  lemma CallLog(w: World, input: Path, tools: Tools)
    requires '.' in input && StabilizedPath(BaseName(input).value) !in w.files
    ensures var base := BaseName(input).value;
            var transforms := TransformsPath(base);
            CreateStabilizedVideoSpec(w, input, tools).world.log ==
              w.log + WorkOps(input, transforms, StabilizedPath(base), transforms in w.files,
                              tools.analysis.Some?, tools.transform.Some?)
  {
    WorkLog(w, input, tools);
  }

  /** The log of a call that does the work, stage by stage. */
  lemma WorkLog(w: World, input: Path, tools: Tools)
    requires '.' in input && StabilizedPath(BaseName(input).value) !in w.files
    ensures var base := BaseName(input).value;
            var transforms := TransformsPath(base);
            var s := CreateStabilizedVideoSpec(w, input, tools);
            s.world.log == w.log + PrepareOps(input, transforms, transforms in w.files) +
                           (if transforms !in w.files && tools.analysis.None? then []
                            else ProduceOps(input, StabilizedPath(base), tools.transform.Some?))
  {
    var base := BaseName(input).value;
    var cleared := AfterDelete(w, TEMP_TRANSFORMS_FILE);
    var transforms, stabilized := TransformsPath(base), StabilizedPath(base);
    var prepared := PrepareTransforms(cleared, input, transforms, tools);
    WorkFacts(w, input, tools);
    assert prepared.world.log == w.log + PrepareOps(input, transforms, transforms in w.files) &&
           (prepared.result.Ok? <==> transforms in w.files || tools.analysis.Some?) by {
      PrepareLog(cleared, input, transforms, tools);
      ScratchOutsideWorkFolder();
    }
    if prepared.result.Ok? {
      var produced := ProduceStabilized(prepared.world, input, stabilized, tools);
      assert produced.world.log == prepared.world.log + ProduceOps(input, stabilized, tools.transform.Some?) by {
        ProduceLog(prepared.world, input, stabilized, tools);
      }
    }
  }

  /** How a call on an input with a '.' ends: it returns the stabilized path,
   *  which then exists, exactly when the video was already there or both the
   *  analysis (unless restored from its checkpoint) and the transform left
   *  their output; otherwise it throws the copy's or the move's
   *  `NoSuchFileException`. */
  lemma CallOutcome(w: World, input: Path, tools: Tools)
    requires '.' in input
    ensures var base := BaseName(input).value;
            var transforms, stabilized := TransformsPath(base), StabilizedPath(base);
            var s := CreateStabilizedVideoSpec(w, input, tools);
            var prepares := transforms in w.files || tools.analysis.Some?;
            (s.result.Ok? <==> stabilized in w.files || (prepares && tools.transform.Some?)) &&
            (s.result.Ok? ==> s.result.value == stabilized && stabilized in s.world.files) &&
            (s.result == Err(NoSuchFile(TEMP_TRANSFORMS_FILE)) <==> stabilized !in w.files && !prepares) &&
            (s.result == Err(NoSuchFile(TEMP_STABILIZED)) <==>
               stabilized !in w.files && prepares && tools.transform.None?)
  {
    var base := BaseName(input).value;
    var transforms, stabilized := TransformsPath(base), StabilizedPath(base);
    var s := CreateStabilizedVideoSpec(w, input, tools);
    ScratchOutsideWorkFolder();
    assert TEMP_TRANSFORMS_FILE != TEMP_STABILIZED;
    if stabilized !in w.files {
      var cleared := AfterDelete(w, TEMP_TRANSFORMS_FILE);
      var prepared := PrepareTransforms(cleared, input, transforms, tools);
      ArtifactPaths(base, base);
      assert (prepared.result.Ok? <==> transforms in w.files || tools.analysis.Some?) &&
             (prepared.result.Err? ==> prepared.result.error == NoSuchFile(TEMP_TRANSFORMS_FILE)) by {
        PrepareLog(cleared, input, transforms, tools);
      }
      if prepared.result.Ok? {
        assert stabilized !in prepared.world.files by {
          PrepareFacts(cleared, input, transforms, tools);
        }
        assert s == ProduceStabilized(prepared.world, input, stabilized, tools);
        ProduceLog(prepared.world, input, stabilized, tools);
        ProduceFacts(prepared.world, input, stabilized, tools);
      }
    }
  }

  /** After a call that did the work and returned normally, the stabilized
   *  video holds the transform's output, the `.trf` checkpoint exists (the one
   *  found, or the analysis output just committed), and `transforms.trf` and
   *  the scratch video are gone. */
  lemma SuccessfulCall(w: World, input: Path, tools: Tools)
    requires '.' in input && StabilizedPath(BaseName(input).value) !in w.files
    requires CreateStabilizedVideoSpec(w, input, tools).result.Ok?
    ensures var base := BaseName(input).value;
            var transforms, stabilized := TransformsPath(base), StabilizedPath(base);
            var after := CreateStabilizedVideoSpec(w, input, tools).world.files;
            stabilized in after && after[stabilized] == tools.transform.value &&
            transforms in after &&
            after[transforms] == (if transforms in w.files then w.files[transforms] else tools.analysis.value) &&
            TEMP_TRANSFORMS_FILE !in after &&
            (stabilized != TEMP_STABILIZED ==> TEMP_STABILIZED !in after)
  {
    var base := BaseName(input).value;
    var transforms, stabilized := TransformsPath(base), StabilizedPath(base);
    var s := CreateStabilizedVideoSpec(w, input, tools);
    var cleared := AfterDelete(w, TEMP_TRANSFORMS_FILE);
    var prepared := PrepareTransforms(cleared, input, transforms, tools);
    ScratchOutsideWorkFolder();
    ArtifactPaths(base, base);
    assert transforms in cleared.files <==> transforms in w.files;
    PrepareLog(cleared, input, transforms, tools);
    PrepareFacts(cleared, input, transforms, tools);
    assert prepared.result.Ok?;
    assert s == ProduceStabilized(prepared.world, input, stabilized, tools);
    ProduceFacts(prepared.world, input, stabilized, tools);
    assert Durable(transforms);
  }

  lemma KeepsDurableTransitive(w: World, w': World, w'': World)
    requires KeepsDurable(w, w') && KeepsDurable(w', w'')
    ensures KeepsDurable(w, w'')
  {
  }

  /** Two stretches that each keep every checkpoint and delete only `paths`
   *  make one such stretch. */
  lemma FrameChain(w: World, w': World, w'': World, paths: set<Path>)
    requires w.log <= w'.log && KeepsDurable(w, w') && DeletesOnly(NewOps(w, w'), paths)
    requires w'.log <= w''.log && KeepsDurable(w', w'') && DeletesOnly(NewOps(w', w''), paths)
    ensures w.log <= w''.log && KeepsDurable(w, w'') && DeletesOnly(NewOps(w, w''), paths)
  {
    NewOpsChain(w, w', w'');
    DeletesOnlyConcat(NewOps(w, w'), NewOps(w', w''), paths);
  }

  lemma UnchangedTransitive(w: World, w': World, w'': World, exempt: set<Path>, exempt': set<Path>)
    requires Unchanged(w, w', exempt) && Unchanged(w', w'', exempt')
    ensures Unchanged(w, w'', exempt + exempt')
  {
  }

  /** What a call may change: no checkpoint is ever deleted or overwritten,
   *  only the scratch files are deleted, and no file other than the scratch
   *  files and the input's two artifacts is touched. */
  lemma CallFrame(w: World, input: Path, tools: Tools)
    ensures var s := CreateStabilizedVideoSpec(w, input, tools);
            w.log <= s.world.log &&
            KeepsDurable(w, s.world) &&
            DeletesOnly(NewOps(w, s.world), {TEMP_TRANSFORMS_FILE, TEMP_STABILIZED}) &&
            ('.' !in input ==> s.world == w) &&
            ('.' in input ==>
               var base := BaseName(input).value;
               Unchanged(w, s.world, {TEMP_TRANSFORMS_FILE, TEMP_STABILIZED,
                                      TransformsPath(base), StabilizedPath(base)}))
  {
    var s := CreateStabilizedVideoSpec(w, input, tools);
    if '.' !in input || StabilizedPath(BaseName(input).value) in w.files {
      NewOpsAppended(w, s.world, []);
    } else {
      var base := BaseName(input).value;
      var transforms, stabilized := TransformsPath(base), StabilizedPath(base);
      var cleared := AfterDelete(w, TEMP_TRANSFORMS_FILE);
      var prepared := PrepareTransforms(cleared, input, transforms, tools);
      ScratchOutsideWorkFolder();
      ArtifactPaths(base, base);
      assert w.log <= s.world.log && DeletesOnly(NewOps(w, s.world), {TEMP_TRANSFORMS_FILE, TEMP_STABILIZED}) by {
        CallLog(w, input, tools);
        NewOpsAppended(w, s.world, WorkOps(input, transforms, stabilized, transforms in w.files,
                                           tools.analysis.Some?, tools.transform.Some?));
      }
      assert KeepsDurable(w, cleared) && Unchanged(w, cleared, {TEMP_TRANSFORMS_FILE});
      PrepareFacts(cleared, input, transforms, tools);
      UnchangedTransitive(w, cleared, prepared.world, {TEMP_TRANSFORMS_FILE}, {TEMP_TRANSFORMS_FILE, transforms});
      KeepsDurableTransitive(w, cleared, prepared.world);
      if prepared.result.Ok? {
        assert s == ProduceStabilized(prepared.world, input, stabilized, tools);
        assert stabilized !in prepared.world.files;
        ProduceFacts(prepared.world, input, stabilized, tools);
        UnchangedTransitive(w, prepared.world, s.world, {TEMP_TRANSFORMS_FILE, transforms},
                            {TEMP_TRANSFORMS_FILE, TEMP_STABILIZED, stabilized});
        KeepsDurableTransitive(w, prepared.world, s.world);
      }
    }
  }

  /** Two inputs with the same base name share their stabilized video: once
   *  the first call has returned normally, a call on the second returns the
   *  same path and does nothing. */
  lemma SameBaseSkipped(w: World, first: Path, second: Path, tools: Tools, tools': Tools)
    requires '.' in first && BaseName(second) == BaseName(first)
    requires CreateStabilizedVideoSpec(w, first, tools).result.Ok?
    ensures var s := CreateStabilizedVideoSpec(w, first, tools);
            CreateStabilizedVideoSpec(s.world, second, tools') == s
  {
    CallOutcome(w, first, tools);
  }

  /** When the transform left no video, the analysis is not lost: after the
   *  cleanup that follows, a new call restores `transforms.trf` from the
   *  checkpoint instead of analysing again, and succeeds exactly when the
   *  transform leaves its output this time. */
  lemma ResumeAfterTransformFailure(w: World, input: Path, tools: Tools, tools': Tools)
    requires '.' in input
    requires CreateStabilizedVideoSpec(w, input, tools).result == Err(NoSuchFile(TEMP_STABILIZED))
    ensures var restart := CleanupSpec(CreateStabilizedVideoSpec(w, input, tools).world);
            var again := CreateStabilizedVideoSpec(restart, input, tools');
            Exec(Analyse(input)) !in NewOps(restart, again.world) &&
            (again.result.Ok? <==> tools'.transform.Some?)
  {
    var base := BaseName(input).value;
    var transforms, stabilized := TransformsPath(base), StabilizedPath(base);
    var s := CreateStabilizedVideoSpec(w, input, tools);
    var restart := CleanupSpec(s.world);
    CallOutcome(w, input, tools);
    assert stabilized !in w.files;
    var cleared := AfterDelete(w, TEMP_TRANSFORMS_FILE);
    var prepared := PrepareTransforms(cleared, input, transforms, tools);
    ScratchOutsideWorkFolder();
    ArtifactPaths(base, base);
    PrepareLog(cleared, input, transforms, tools);
    PrepareFacts(cleared, input, transforms, tools);
    assert s == ProduceStabilized(prepared.world, input, stabilized, tools);
    ProduceFacts(prepared.world, input, stabilized, tools);
    assert Durable(transforms);
    assert transforms in restart.files && stabilized !in restart.files;
    CallLog(restart, input, tools');
    CallOutcome(restart, input, tools');
  }

  /** The only analysis among the calls of a call that does the work is
   *  that of its own input, issued when the checkpoint was not restored. */
  lemma WorkOpsAnalyses(input: Path, transforms: Path, stabilized: Path, restored: bool, analysed: bool,
                        transformed: bool, x: Path)
    requires Exec(Analyse(x)) in WorkOps(input, transforms, stabilized, restored, analysed, transformed)
    ensures x == input && !restored
  {
    var tail := if !restored && !analysed then [] else ProduceOps(input, stabilized, transformed);
    assert Exec(Analyse(x)) !in tail;
  }

  /** The analysis of an input is run only by the call on that input, and
   *  only when neither its stabilized video nor its `.trf` checkpoint
   *  exists. */
  lemma AnalysesOnlyUncheckpointed(w: World, input: Path, tools: Tools, x: Path)
    requires Exec(Analyse(x)) in NewOps(w, CreateStabilizedVideoSpec(w, input, tools).world)
    ensures x == input && '.' in input
    ensures StabilizedPath(BaseName(input).value) !in w.files
    ensures TransformsPath(BaseName(input).value) !in w.files
  {
    var s := CreateStabilizedVideoSpec(w, input, tools);
    if '.' !in input || StabilizedPath(BaseName(input).value) in w.files {
      NewOpsAppended(w, s.world, []);
      assert false;
    }
    var base := BaseName(input).value;
    var transforms, stabilized := TransformsPath(base), StabilizedPath(base);
    var ops := WorkOps(input, transforms, stabilized, transforms in w.files,
                       tools.analysis.Some?, tools.transform.Some?);
    CallLog(w, input, tools);
    NewOpsAppended(w, s.world, ops);
    WorkOpsAnalyses(input, transforms, stabilized, transforms in w.files,
                    tools.analysis.Some?, tools.transform.Some?, x);
  }

  /** The only transform among the calls of a call that does the work is
   *  that of its own input. */
  lemma WorkOpsTransforms(input: Path, transforms: Path, stabilized: Path, restored: bool, analysed: bool,
                          transformed: bool, x: Path)
    requires Exec(Transform(x, TEMP_STABILIZED)) in WorkOps(input, transforms, stabilized, restored, analysed, transformed)
    ensures x == input
  {
    assert Exec(Transform(x, TEMP_STABILIZED)) !in PrepareOps(input, transforms, restored);
  }

  /** The transform of an input is run only by the call on that input, and
   *  only when its stabilized video does not exist. */
  lemma TransformsOnlyUnstabilized(w: World, input: Path, tools: Tools, x: Path)
    requires Exec(Transform(x, TEMP_STABILIZED)) in NewOps(w, CreateStabilizedVideoSpec(w, input, tools).world)
    ensures x == input && '.' in input
    ensures StabilizedPath(BaseName(input).value) !in w.files
  {
    var s := CreateStabilizedVideoSpec(w, input, tools);
    if '.' !in input || StabilizedPath(BaseName(input).value) in w.files {
      NewOpsAppended(w, s.world, []);
      assert false;
    }
    var base := BaseName(input).value;
    var transforms, stabilized := TransformsPath(base), StabilizedPath(base);
    var ops := WorkOps(input, transforms, stabilized, transforms in w.files,
                       tools.analysis.Some?, tools.transform.Some?);
    CallLog(w, input, tools);
    NewOpsAppended(w, s.world, ops);
    WorkOpsTransforms(input, transforms, stabilized, transforms in w.files,
                      tools.analysis.Some?, tools.transform.Some?, x);
  }
}
