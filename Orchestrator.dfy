/** The program's entry point (`main`): the guards on the output name, the
 *  sorted listing of the input videos, the loop that stabilizes each of them
 *  in turn, the concatenation manifest and the cleanup around it all. */
module Orchestrator {
  import opened Names
  import opened Order
  import opened FileSystem
  import opened Checkpoint

  /** What the external tool leaves behind in one run of the program: per
   *  input, the analysis and transform outputs, and the concatenation's
   *  output. */
  datatype Oracle = Oracle(tools: Path -> Tools, concat: Option<Content>)

  /** The `forEach` loop of `main` over the first `|inputs|` inputs: the first
   *  exception ends it. */
  function StabilizeAllSpec(w: World, inputs: seq<Path>, oracle: Oracle): Step<seq<Path>>
    decreases |inputs|
  {
    if inputs == [] then Step(w, Ok([]))
    else
      var before := StabilizeAllSpec(w, inputs[..|inputs| - 1], oracle);
      if before.result.Err? then before
      else
        var last := inputs[|inputs| - 1];
        var s := CreateStabilizedVideoSpec(before.world, last, oracle.tools(last));
        if s.result.Err? then Step(s.world, Err(s.result.error))
        else Step(s.world, Ok(before.result.value + [s.result.value]))
  }

  /** Once a call has thrown, the rest of the inputs are never looked at. */
  lemma {:induction false} AbortIsFinal(w: World, inputs: seq<Path>, k: nat, oracle: Oracle)
    requires k <= |inputs| && StabilizeAllSpec(w, inputs[..k], oracle).result.Err?
    ensures StabilizeAllSpec(w, inputs, oracle) == StabilizeAllSpec(w, inputs[..k], oracle)
    decreases |inputs| - k
  {
    if k < |inputs| {
      var longer := inputs[..k + 1];
      assert longer[..k] == inputs[..k];
      assert StabilizeAllSpec(w, longer, oracle) == StabilizeAllSpec(w, inputs[..k], oracle);
      assert inputs[..k + 1][..k + 1] == inputs[..k + 1];
      AbortIsFinal(w, inputs, k + 1, oracle);
    } else {
      assert inputs[..k] == inputs;
    }
  }

  /** The paths the loop collects are the inputs' stabilized paths, one per
   *  input and in the inputs' order. */
  lemma {:induction false} StabilizedInOrder(w: World, inputs: seq<Path>, oracle: Oracle)
    ensures var s := StabilizeAllSpec(w, inputs, oracle);
            s.result.Ok? ==>
              |s.result.value| == |inputs| &&
              forall i :: 0 <= i < |inputs| ==>
                '.' in inputs[i] && s.result.value[i] == StabilizedPath(BaseName(inputs[i]).value)
    decreases |inputs|
  {
    var s := StabilizeAllSpec(w, inputs, oracle);
    if inputs != [] && s.result.Ok? {
      var prefix := inputs[..|inputs| - 1];
      var last := inputs[|inputs| - 1];
      var before := StabilizeAllSpec(w, prefix, oracle);
      StabilizedInOrder(w, prefix, oracle);
      var tools := oracle.tools(last);
      var call := CreateStabilizedVideoSpec(before.world, last, tools);
      assert before.result.Ok? && call.result.Ok? && s.result.value == before.result.value + [call.result.value];
      assert '.' in last && call.result.value == StabilizedPath(BaseName(last).value) by {
        if '.' !in last {
          NoDotFails(before.world, last, tools);
        }
        CallOutcome(before.world, last, tools);
      }
    }
  }

  /** What the loop throws is one of the three exceptions a call can throw:
   *  the base-name extraction's, for an input without a '.', or the
   *  `NoSuchFileException` of the checkpoint copy or of the move. */
  lemma {:induction false} LoopFailures(w: World, inputs: seq<Path>, oracle: Oracle)
    ensures var s := StabilizeAllSpec(w, inputs, oracle);
            s.result.Err? ==>
              s.result.error == NoSuchFile(TEMP_TRANSFORMS_FILE) || s.result.error == NoSuchFile(TEMP_STABILIZED) ||
              (s.result.error.IndexOutOfBounds? && s.result.error.text in inputs && '.' !in s.result.error.text)
    decreases |inputs|
  {
    var s := StabilizeAllSpec(w, inputs, oracle);
    if inputs != [] && s.result.Err? {
      var prefix := inputs[..|inputs| - 1];
      var last := inputs[|inputs| - 1];
      var before := StabilizeAllSpec(w, prefix, oracle);
      LoopFailures(w, prefix, oracle);
      assert forall x :: x in prefix ==> x in inputs;
      if before.result.Ok? {
        var tools := oracle.tools(last);
        if '.' in last {
          CallOutcome(before.world, last, tools);
        } else {
          NoDotFails(before.world, last, tools);
        }
      }
    }
  }

  /** The loop never removes or overwrites a checkpoint and deletes nothing but
   *  the scratch files. */
  lemma {:induction false} StabilizeAllFrame(w: World, inputs: seq<Path>, oracle: Oracle)
    ensures var s := StabilizeAllSpec(w, inputs, oracle);
            w.log <= s.world.log && KeepsDurable(w, s.world) &&
            DeletesOnly(NewOps(w, s.world), {TEMP_TRANSFORMS_FILE, TEMP_STABILIZED})
    decreases |inputs|
  {
    var s := StabilizeAllSpec(w, inputs, oracle);
    if inputs == [] {
      NewOpsAppended(w, s.world, []);
    } else {
      var prefix := inputs[..|inputs| - 1];
      var last := inputs[|inputs| - 1];
      var before := StabilizeAllSpec(w, prefix, oracle);
      StabilizeAllFrame(w, prefix, oracle);
      if before.result.Ok? {
        var call := CreateStabilizedVideoSpec(before.world, last, oracle.tools(last));
        assert s.world == call.world;
        var scratch := {TEMP_TRANSFORMS_FILE, TEMP_STABILIZED};
        assert before.world.log <= s.world.log && KeepsDurable(before.world, s.world) &&
               DeletesOnly(NewOps(before.world, s.world), scratch) by {
          CallFrame(before.world, last, oracle.tools(last));
        }
        NewOpsChain(w, before.world, s.world);
        DeletesOnlyConcat(NewOps(w, before.world), NewOps(before.world, s.world), scratch);
        KeepsDurableTransitive(w, before.world, s.world);
      }
    }
  }

  /** Inputs whose `.trf` checkpoint exists when the loop starts are never
   *  analysed again. */
  lemma {:induction false} CheckpointedNotAnalysed(w: World, inputs: seq<Path>, oracle: Oracle, x: Path)
    requires '.' in x && TransformsPath(BaseName(x).value) in w.files
    ensures Exec(Analyse(x)) !in NewOps(w, StabilizeAllSpec(w, inputs, oracle).world)
    decreases |inputs|
  {
    var s := StabilizeAllSpec(w, inputs, oracle);
    if inputs == [] {
      NewOpsAppended(w, s.world, []);
    } else {
      var prefix := inputs[..|inputs| - 1];
      var last := inputs[|inputs| - 1];
      var before := StabilizeAllSpec(w, prefix, oracle);
      CheckpointedNotAnalysed(w, prefix, oracle, x);
      StabilizeAllFrame(w, prefix, oracle);
      if before.result.Ok? {
        var tools := oracle.tools(last);
        var call := CreateStabilizedVideoSpec(before.world, last, tools);
        CallFrame(before.world, last, tools);
        assert s.world == call.world;
        NewOpsChain(w, before.world, s.world);
        ArtifactPaths(BaseName(x).value, BaseName(x).value);
        assert TransformsPath(BaseName(x).value) in before.world.files;
        if Exec(Analyse(x)) in NewOps(before.world, s.world) {
          AnalysesOnlyUncheckpointed(before.world, last, tools, x);
          assert false;
        }
      } else {
        assert s == before;
      }
    }
  }

  /** Inputs whose stabilized video exists when the loop starts are never
   *  transformed again. */
  lemma {:induction false} StabilizedNotTransformed(w: World, inputs: seq<Path>, oracle: Oracle, x: Path)
    requires '.' in x && StabilizedPath(BaseName(x).value) in w.files
    requires StabilizedPath(BaseName(x).value) != TEMP_STABILIZED
    ensures Exec(Transform(x, TEMP_STABILIZED)) !in NewOps(w, StabilizeAllSpec(w, inputs, oracle).world)
    decreases |inputs|
  {
    var s := StabilizeAllSpec(w, inputs, oracle);
    if inputs == [] {
      NewOpsAppended(w, s.world, []);
    } else {
      var prefix := inputs[..|inputs| - 1];
      var last := inputs[|inputs| - 1];
      var before := StabilizeAllSpec(w, prefix, oracle);
      StabilizedNotTransformed(w, prefix, oracle, x);
      StabilizeAllFrame(w, prefix, oracle);
      if before.result.Ok? {
        var tools := oracle.tools(last);
        var call := CreateStabilizedVideoSpec(before.world, last, tools);
        CallFrame(before.world, last, tools);
        assert s.world == call.world;
        NewOpsChain(w, before.world, s.world);
        ArtifactPaths(BaseName(x).value, BaseName(x).value);
        assert StabilizedPath(BaseName(x).value) in before.world.files;
        if Exec(Transform(x, TEMP_STABILIZED)) in NewOps(before.world, s.world) {
          TransformsOnlyUnstabilized(before.world, last, tools, x);
          assert false;
        }
      } else {
        assert s == before;
      }
    }
  }

  /** After the loop has run through, every input's stabilized video exists
   *  (except one kept at the scratch video's own path, which the next input's
   *  transform step deletes). */
  lemma {:induction false} StabilizedVideosExist(w: World, inputs: seq<Path>, oracle: Oracle)
    ensures var s := StabilizeAllSpec(w, inputs, oracle);
            s.result.Ok? ==>
              forall i :: 0 <= i < |s.result.value| && s.result.value[i] != TEMP_STABILIZED ==>
                s.result.value[i] in s.world.files
    decreases |inputs|
  {
    var s := StabilizeAllSpec(w, inputs, oracle);
    if inputs != [] && s.result.Ok? {
      var prefix := inputs[..|inputs| - 1];
      var last := inputs[|inputs| - 1];
      var before := StabilizeAllSpec(w, prefix, oracle);
      StabilizedVideosExist(w, prefix, oracle);
      StabilizedInOrder(w, prefix, oracle);
      var tools := oracle.tools(last);
      var call := CreateStabilizedVideoSpec(before.world, last, tools);
      assert before.result.Ok? && call.result.Ok? && s == Step(call.world, Ok(before.result.value + [call.result.value]));
      assert call.result.value in call.world.files by {
        if '.' !in last {
          NoDotFails(before.world, last, tools);
        }
        CallOutcome(before.world, last, tools);
      }
      assert KeepsDurable(before.world, call.world) by {
        CallFrame(before.world, last, tools);
      }
      forall i | 0 <= i < |s.result.value| && s.result.value[i] != TEMP_STABILIZED
        ensures s.result.value[i] in s.world.files
      {
        if i < |prefix| {
          var p := before.result.value[i];
          assert s.result.value[i] == p;
          ArtifactPaths(BaseName(inputs[i]).value, BaseName(inputs[i]).value);
          assert prefix[i] == inputs[i];
          assert Durable(p) && p in before.world.files;
        }
      }
    }
  }

  /** When every input's stabilized video already exists, the loop does
   *  nothing and returns their paths. */
  lemma {:induction false} AllDoneIsNoOp(w: World, inputs: seq<Path>, oracle: Oracle)
    requires forall x :: x in inputs ==> '.' in x && StabilizedPath(BaseName(x).value) in w.files
    ensures StabilizeAllSpec(w, inputs, oracle).world == w
    ensures StabilizeAllSpec(w, inputs, oracle).result.Ok?
    decreases |inputs|
  {
    if inputs != [] {
      var prefix := inputs[..|inputs| - 1];
      var last := inputs[|inputs| - 1];
      assert forall x :: x in prefix ==> x in inputs;
      AllDoneIsNoOp(w, prefix, oracle);
      SkipWhenStabilized(w, last, oracle.tools(last));
    }
  }

  /** One line of the concatenation listing: the stabilized video's name in
   *  the work folder, quoted for the concat demuxer. A path directly inside
   *  the work folder is named as it is. */
  function ManifestLine(path: Path): (line: string)
    ensures WORK_PREFIX <= path && SEPARATOR !in path[|WORK_PREFIX|..] ==> line == "file '" + path + "'"
  {
    DirectlyInWorkFolder(path);
    "file '" + WORK_FOLDER + [SEPARATOR] + FileName(path) + "'"
  }

  /** A path directly inside the work folder is the work folder followed by
   *  its file name. */
  lemma DirectlyInWorkFolder(path: Path)
    ensures WORK_PREFIX <= path && SEPARATOR !in path[|WORK_PREFIX|..] ==> WORK_FOLDER + [SEPARATOR] + FileName(path) == path
  {
    if WORK_PREFIX <= path && SEPARATOR !in path[|WORK_PREFIX|..] {
      var name := path[|WORK_PREFIX|..];
      assert path == InWorkFolder(name);
      FileNameInWorkFolder(name);
    }
  }

  /** For a stabilized video the line names the path it is kept at. */
  lemma ManifestLineOfStabilized(base: string)
    requires SEPARATOR !in base
    ensures ManifestLine(StabilizedPath(base)) == "file '" + StabilizedPath(base) + "'"
  {
    assert SEPARATOR !in base + VIDEO_FILE_SUFFIX;
    FileNameInWorkFolder(base + VIDEO_FILE_SUFFIX);
  }

  /** The listing written for the concatenation: one line per stabilized
   *  video, in the same order. */
  function Manifest(paths: seq<Path>): (lines: seq<string>)
    ensures |lines| == |paths|
    ensures forall i :: 0 <= i < |paths| ==> lines[i] == ManifestLine(paths[i])
  {
    if paths == [] then []
    else Manifest(paths[..|paths| - 1]) + [ManifestLine(paths[|paths| - 1])]
  }

  /** `joinStabilizedVideos`: replace the listing file by the manifest and run
   *  the concatenation, which writes the output's file name in the current
   *  folder. */
  function JoinSpec(w: World, paths: seq<Path>, output: Path, produced: Option<Content>): World {
    var name := FileName(output);
    AfterRun(AfterWrite(AfterDelete(w, LISTING_FILENAME), LISTING_FILENAME, Manifest(paths)),
             Concat(LISTING_FILENAME, name), name, produced)
  }

  method JoinStabilizedVideos(disk: Disk, paths: seq<Path>, output: Path, produced: Option<Content>)
    modifies disk
    ensures disk.State() == JoinSpec(old(disk.State()), paths, output, produced)
  {
    disk.DeleteFile(LISTING_FILENAME);
    var lines: seq<string> := [];
    for i := 0 to |paths|
      invariant lines == Manifest(paths[..i])
    {
      assert paths[..i + 1][..i] == paths[..i];
      lines := lines + [ManifestLine(paths[i])];
    }
    assert paths[..|paths|] == paths;
    disk.WriteLines(LISTING_FILENAME, lines);
    var name := FileName(output);
    disk.RunCommand(Concat(LISTING_FILENAME, name), name, produced);
  }

  /** How a run ends: the output name's suffix is wrong, the output exists
   *  already, an exception reached `main`'s handler, or the videos were
   *  stabilized and joined. */
  datatype Outcome =
    | BadSuffix
    | NothingToDo
    | Failed(error: Error)
    | Joined(inputs: seq<Path>, stabilized: seq<Path>)
  {
    /** The status `main` exits with. */
    function ExitCode(): (code: int)
      ensures code == 1 <==> Failed?
      ensures code == 0 || code == 1
    {
      if Failed? then 1 else 0
    }
  }

  datatype Exit = Exit(world: World, outcome: Outcome)

  /** The output file the run is asked for, as `Paths.get` keeps it: the
   *  argument in normal form, or the default name. */
  function OutputPath(args: seq<string>): (output: Path)
    ensures NormalPath(output)
    ensures |args| > 0 && NormalPath(args[0]) ==> output == args[0]
    ensures |args| == 0 ==> output == DEFAULT_OUTPUT_VIDEO_FILENAME
  {
    PathsGet(if |args| > 0 then args[0] else DEFAULT_OUTPUT_VIDEO_FILENAME)
  }

  /** The work after the guards on the listed `inputs`: create the work
   *  folder, stabilize every input and join the results. */
  function WorkOn(w: World, inputs: seq<Path>, output: Path, oracle: Oracle): (e: Exit)
    ensures e.outcome.Joined? || e.outcome.Failed?
    ensures e.outcome.Joined? ==> e.outcome.inputs == inputs && |e.outcome.stabilized| == |inputs|
  {
    var folder := AfterMakeFolder(w, WORK_FOLDER);
    match FolderError(w, WORK_FOLDER)
    case Some(e) => Exit(folder, Failed(e))
    case None =>
      var s := StabilizeAllSpec(folder, inputs, oracle);
      if s.result.Err? then Exit(s.world, Failed(s.result.error))
      else
        StabilizedInOrder(folder, inputs, oracle);
        Exit(JoinSpec(s.world, s.result.value, output, oracle.concat), Joined(inputs, s.result.value))
  }

  /** `main`'s guards on the output name, on the files `start` the first
   *  cleanup left: the outcome when one of them ends the run early. */
  function EarlyOutcome(start: World, args: seq<string>): (early: Option<Outcome>)
    ensures early.Some? ==> !early.value.Joined?
  {
    var output := OutputPath(args);
    GuardOutcome(start, FileName(output), ExistencePath(output))
  }

  /** The guards on the output's file `name` and on the `file` its path
   *  resolves to. */
  function GuardOutcome(start: World, name: string, file: Path): (early: Option<Outcome>)
    ensures early.Some? ==> !early.value.Joined?
  {
    match Suffix(name)
    case None => Some(Failed(IndexOutOfBounds(name)))
    case Some(suffix) =>
      if !EqualsIgnoreCase(suffix, VIDEO_FILE_SUFFIX) then Some(BadSuffix)
      else if file in start.files then Some(NothingToDo)
      else None
  }

  /** The guards look at the output path only through its file name and
   *  the file the existence check resolves it to. */
  lemma GuardsSeeNameAndFile(start: World, args: seq<string>, args': seq<string>)
    requires FileName(OutputPath(args)) == FileName(OutputPath(args'))
    requires ExistencePath(OutputPath(args)) == ExistencePath(OutputPath(args'))
    ensures EarlyOutcome(start, args) == EarlyOutcome(start, args')
  {
  }

  /** An output argument that starts with `./` names the same file as the
   *  argument without it: the guards end the run the same way. */
  lemma CurrentFolderArgument(start: World, name: Path)
    requires NormalPath(name) && 0 < |name| && name[0] != SEPARATOR
    ensures EarlyOutcome(start, [CURRENT_PREFIX + name]) == EarlyOutcome(start, [name])
  {
    CurrentFolderPath(name);
    assert OutputPath([CURRENT_PREFIX + name]) == CURRENT_PREFIX + name;
    assert OutputPath([name]) == name;
    GuardsSeeNameAndFile(start, [CURRENT_PREFIX + name], [name]);
  }

  /** An output argument that ends in a separator names the same file as the
   *  argument without it. */
  lemma TrailingSeparatorArgument(start: World, name: Path)
    requires NormalPath(name) && 0 < |name| && name[0] != SEPARATOR
    ensures EarlyOutcome(start, [name + [SEPARATOR]]) == EarlyOutcome(start, [name])
  {
    TrailingSeparatorPath(name);
    assert OutputPath([name + [SEPARATOR]]) == name;
    assert OutputPath([name]) == name;
    GuardsSeeNameAndFile(start, [name + [SEPARATOR]], [name]);
  }

  /** An output argument with a doubled separator names the same file as the
   *  argument with a single one. */
  lemma RepeatedSeparatorArgument(start: World, a: string, b: string)
    ensures EarlyOutcome(start, [a + [SEPARATOR, SEPARATOR] + b]) == EarlyOutcome(start, [a + [SEPARATOR] + b])
  {
    PathsGetDropsRepeat(a, b);
    assert OutputPath([a + [SEPARATOR, SEPARATOR] + b]) == OutputPath([a + [SEPARATOR] + b]);
    GuardsSeeNameAndFile(start, [a + [SEPARATOR, SEPARATOR] + b], [a + [SEPARATOR] + b]);
  }

  /** What `main` does between its two cleanups, on the files `start` the
   *  first cleanup left, whose regular files are listed, sorted, in `inputs`:
   *  the outcome `early` of the guards, if one of them ends the run, else
   *  the work towards `output`. */
  function Body(start: World, inputs: seq<Path>, early: Option<Outcome>, output: Path, oracle: Oracle): Exit {
    if early.Some? then Exit(start, early.value) else WorkOn(start, inputs, output, oracle)
  }

  /** The sorted listing of the regular files of the current folder. */
  ghost function Listing(w: World): seq<Path> {
    SortedElements(RegularFiles(w))
  }

  /** `main`, as a function of the files present when it starts: cleanup,
   *  the body, and cleanup again in `finally`. */
  ghost function RunSpec(w: World, args: seq<string>, oracle: Oracle): Exit {
    var start := CleanupSpec(w);
    var body := Body(start, Listing(start), EarlyOutcome(start, args), OutputPath(args), oracle);
    Exit(CleanupSpec(body.world), body.outcome)
  }

  /** The `forEach` loop of `main`: stabilize the inputs one after the other,
   *  collecting the stabilized paths, until the first exception. */
  method StabilizeAll(disk: Disk, inputs: seq<Path>, oracle: Oracle) returns (result: Result<seq<Path>>)
    modifies disk
    ensures Step(disk.State(), result) == StabilizeAllSpec(old(disk.State()), inputs, oracle)
  {
    ghost var start := disk.State();
    var stabilized: seq<Path> := [];
    var i := 0;
    while i < |inputs|
      invariant 0 <= i <= |inputs|
      invariant Step(disk.State(), Ok(stabilized)) == StabilizeAllSpec(start, inputs[..i], oracle)
    {
      assert inputs[..i + 1][..i] == inputs[..i];
      var r := CreateStabilizedVideo(disk, inputs[i], oracle.tools(inputs[i]));
      if r.Err? {
        AbortIsFinal(start, inputs, i + 1, oracle);
        return Err(r.error);
      }
      stabilized := stabilized + [r.value];
      i := i + 1;
    }
    assert inputs[..i] == inputs;
    return Ok(stabilized);
  }

  method Run(disk: Disk, args: seq<string>, oracle: Oracle) returns (outcome: Outcome)
    modifies disk
    ensures Exit(disk.State(), outcome) == RunSpec(old(disk.State()), args, oracle)
  {
    Cleanup(disk);
    ghost var start := disk.State();
    ghost var listing := Listing(start);
    var output := OutputPath(args);
    var name := FileName(output);
    var suffix := Suffix(name);
    if suffix.None? {
      outcome := Failed(IndexOutOfBounds(name));
    } else if !EqualsIgnoreCase(suffix.value, VIDEO_FILE_SUFFIX) {
      outcome := BadSuffix;
    } else if ExistencePath(output) in disk.files {
      outcome := NothingToDo;
    } else {
      var inputs := disk.ListFilesInFolder();
      var err := disk.CreateFolder(WORK_FOLDER);
      if err.Some? {
        outcome := Failed(err.value);
      } else {
        var result := StabilizeAll(disk, inputs, oracle);
        match result
        case Err(e) =>
          outcome := Failed(e);
        case Ok(stabilized) =>
          JoinStabilizedVideos(disk, stabilized, output, oracle.concat);
          outcome := Joined(inputs, stabilized);
      }
      assert Exit(disk.State(), outcome) == WorkOn(start, listing, output, oracle);
    }
    assert Exit(disk.State(), outcome) == Body(start, listing, EarlyOutcome(start, args), output, oracle);
    Cleanup(disk);
  }

  /** Joining writes the manifest of the stabilized videos to the listing
   *  file and runs the concatenation on it: it deletes nothing but the
   *  listing file and keeps every checkpoint. */
  lemma JoinFrame(w: World, paths: seq<Path>, output: Path, produced: Option<Content>)
    ensures var e := JoinSpec(w, paths, output, produced);
            e.log == w.log + [Delete(LISTING_FILENAME), Write(LISTING_FILENAME, Manifest(paths)),
                              Exec(Concat(LISTING_FILENAME, FileName(output)))] &&
            KeepsDurable(w, e) && DeletesOnly(NewOps(w, e), SCRATCH)
  {
    var name := FileName(output);
    var lines := Manifest(paths);
    var deleted := AfterDelete(w, LISTING_FILENAME);
    var written := AfterWrite(deleted, LISTING_FILENAME, lines);
    var e := AfterRun(written, Concat(LISTING_FILENAME, name), name, produced);
    var ops := [Delete(LISTING_FILENAME), Write(LISTING_FILENAME, lines), Exec(Concat(LISTING_FILENAME, name))];
    assert e == JoinSpec(w, paths, output, produced);
    NewOpsAppended(w, e, ops);
    assert DeletesOnly(ops, SCRATCH) by {
      forall i | 0 <= i < |ops| && ops[i].Delete? ensures ops[i].path in SCRATCH {
        assert i == 0;
      }
    }
    assert !Durable(LISTING_FILENAME) && !Durable(name) by {
      ScratchOutsideWorkFolder();
      PlainNameOutsideWorkFolder(name);
    }
  }

  /** The work after the guards keeps every checkpoint and deletes only the
   *  listing and scratch files. */
  lemma WorkFrame(w: World, inputs: seq<Path>, output: Path, oracle: Oracle)
    ensures var e := WorkOn(w, inputs, output, oracle);
            w.log <= e.world.log && KeepsDurable(w, e.world) && DeletesOnly(NewOps(w, e.world), SCRATCH)
  {
    var e := WorkOn(w, inputs, output, oracle);
    var folder := AfterMakeFolder(w, WORK_FOLDER);
    NewOpsAppended(w, folder, [MakeFolder(WORK_FOLDER)]);
    if FolderError(w, WORK_FOLDER).None? {
      var s := StabilizeAllSpec(folder, inputs, oracle);
      assert folder.log <= s.world.log && KeepsDurable(folder, s.world) &&
             DeletesOnly(NewOps(folder, s.world), SCRATCH) by {
        StabilizeAllFrame(folder, inputs, oracle);
        var ops := NewOps(folder, s.world);
        assert forall i :: 0 <= i < |ops| && ops[i].Delete? ==> ops[i].path in SCRATCH;
      }
      FrameChain(w, folder, s.world, SCRATCH);
      if s.result.Ok? {
        JoinFrame(s.world, s.result.value, output, oracle.concat);
        FrameChain(w, s.world, e.world, SCRATCH);
      }
    }
  }

  /** The work after the guards does not analyse an input whose `.trf`
   *  checkpoint exists. */
  lemma WorkNoReanalysis(w: World, inputs: seq<Path>, output: Path, oracle: Oracle, x: Path)
    requires '.' in x && TransformsPath(BaseName(x).value) in w.files
    ensures Exec(Analyse(x)) !in NewOps(w, WorkOn(w, inputs, output, oracle).world)
  {
    WorkCommands(w, inputs, output, oracle, Analyse(x));
    var folder := AfterMakeFolder(w, WORK_FOLDER);
    if FolderError(w, WORK_FOLDER).None? {
      assert Exec(Analyse(x)) !in NewOps(folder, StabilizeAllSpec(folder, inputs, oracle).world) by {
        CheckpointedNotAnalysed(folder, inputs, oracle, x);
      }
    }
  }

  /** The work after the guards does not transform an input whose stabilized
   *  video exists. */
  lemma WorkNoRetransform(w: World, inputs: seq<Path>, output: Path, oracle: Oracle, x: Path)
    requires '.' in x && StabilizedPath(BaseName(x).value) in w.files
    requires StabilizedPath(BaseName(x).value) != TEMP_STABILIZED
    ensures Exec(Transform(x, TEMP_STABILIZED)) !in NewOps(w, WorkOn(w, inputs, output, oracle).world)
  {
    WorkCommands(w, inputs, output, oracle, Transform(x, TEMP_STABILIZED));
    var folder := AfterMakeFolder(w, WORK_FOLDER);
    if FolderError(w, WORK_FOLDER).None? {
      assert Exec(Transform(x, TEMP_STABILIZED)) !in NewOps(folder, StabilizeAllSpec(folder, inputs, oracle).world) by {
        StabilizedNotTransformed(folder, inputs, oracle, x);
      }
    }
  }

  /** The calls issued by the work after the guards: the folder is created,
   *  then, unless that failed, the loop's calls, followed, unless the loop
   *  threw, by the join's. */
  lemma WorkOnLog(w: World, inputs: seq<Path>, output: Path, oracle: Oracle)
    ensures var folder := AfterMakeFolder(w, WORK_FOLDER);
            var s := StabilizeAllSpec(folder, inputs, oracle);
            NewOps(w, WorkOn(w, inputs, output, oracle).world) ==
              [MakeFolder(WORK_FOLDER)] +
              (if FolderError(w, WORK_FOLDER).Some? then []
               else NewOps(folder, s.world) +
                    (if s.result.Err? then [] else JoinOps(s.result.value, output)))
  {
    var e := WorkOn(w, inputs, output, oracle);
    var folder := AfterMakeFolder(w, WORK_FOLDER);
    NewOpsAppended(w, folder, [MakeFolder(WORK_FOLDER)]);
    if FolderError(w, WORK_FOLDER).None? {
      var s := StabilizeAllSpec(folder, inputs, oracle);
      assert folder.log <= s.world.log by {
        StabilizeAllFrame(folder, inputs, oracle);
      }
      NewOpsChain(w, folder, s.world);
      if s.result.Ok? {
        assert e.world == JoinSpec(s.world, s.result.value, output, oracle.concat);
        assert e.world.log == s.world.log + JoinOps(s.result.value, output) by {
          JoinFrame(s.world, s.result.value, output, oracle.concat);
        }
        NewOpsAppended(s.world, e.world, JoinOps(s.result.value, output));
        NewOpsChain(w, s.world, e.world);
      }
    }
  }

  /** The work after the guards issues a stabilizing command only from within
   *  the loop. */
  lemma WorkCommands(w: World, inputs: seq<Path>, output: Path, oracle: Oracle, cmd: Command)
    requires cmd.Analyse? || cmd.Transform?
    ensures var folder := AfterMakeFolder(w, WORK_FOLDER);
            Exec(cmd) in NewOps(w, WorkOn(w, inputs, output, oracle).world) ==>
              FolderError(w, WORK_FOLDER).None? &&
              Exec(cmd) in NewOps(folder, StabilizeAllSpec(folder, inputs, oracle).world)
  {
    var folder := AfterMakeFolder(w, WORK_FOLDER);
    var s := StabilizeAllSpec(folder, inputs, oracle);
    WorkOnLog(w, inputs, output, oracle);
    if s.result.Ok? {
      assert Exec(cmd) !in JoinOps(s.result.value, output);
    }
  }

  /** The part of a run between the two cleanups keeps every checkpoint and
   *  deletes only the listing and scratch files. */
  lemma BodyFrame(start: World, inputs: seq<Path>, early: Option<Outcome>, output: Path, oracle: Oracle)
    ensures var body := Body(start, inputs, early, output, oracle).world;
            start.log <= body.log && KeepsDurable(start, body) && DeletesOnly(NewOps(start, body), SCRATCH)
  {
    var body := Body(start, inputs, early, output, oracle).world;
    if early.Some? {
      NewOpsAppended(start, body, []);
    } else {
      WorkFrame(start, inputs, output, oracle);
    }
  }

  /** The part of a run between the two cleanups analyses no input whose
   *  `.trf` checkpoint exists and transforms no input whose stabilized video
   *  exists. */
  lemma BodyNoRedo(start: World, inputs: seq<Path>, early: Option<Outcome>, output: Path, oracle: Oracle, x: Path)
    requires '.' in x
    ensures var body := Body(start, inputs, early, output, oracle).world;
            (TransformsPath(BaseName(x).value) in start.files ==> Exec(Analyse(x)) !in NewOps(start, body)) &&
            (StabilizedPath(BaseName(x).value) in start.files &&
             StabilizedPath(BaseName(x).value) != TEMP_STABILIZED ==>
               Exec(Transform(x, TEMP_STABILIZED)) !in NewOps(start, body))
  {
    var body := Body(start, inputs, early, output, oracle).world;
    if early.Some? {
      NewOpsAppended(start, body, []);
    } else {
      if TransformsPath(BaseName(x).value) in start.files {
        WorkNoReanalysis(start, inputs, output, oracle, x);
      }
      if StabilizedPath(BaseName(x).value) in start.files && StabilizedPath(BaseName(x).value) != TEMP_STABILIZED {
        WorkNoRetransform(start, inputs, output, oracle, x);
      }
    }
  }

  /** Wrapping a stretch of work between two cleanups keeps every checkpoint
   *  it keeps and deletes nothing but the listing and scratch files. */
  lemma BetweenCleanups(w: World, body: World)
    requires CleanupSpec(w).log <= body.log
    requires KeepsDurable(CleanupSpec(w), body) && DeletesOnly(NewOps(CleanupSpec(w), body), SCRATCH)
    ensures var e := CleanupSpec(body);
            KeepsDurable(w, e) && DeletesOnly(NewOps(w, e), SCRATCH)
  {
    var start, e := CleanupSpec(w), CleanupSpec(body);
    CleanupKeepsDurable(w);
    CleanupKeepsDurable(body);
    assert DeletesOnly(CLEANUP_OPS, SCRATCH);
    NewOpsAppended(w, start, CLEANUP_OPS);
    NewOpsAppended(body, e, CLEANUP_OPS);
    FrameChain(w, start, body, SCRATCH);
    FrameChain(w, body, e, SCRATCH);
  }

  /** The cleanups around a stretch of work run no command. */
  lemma CommandsBetweenCleanups(w: World, body: World, cmd: Command)
    requires CleanupSpec(w).log <= body.log
    ensures Exec(cmd) in NewOps(w, CleanupSpec(body)) <==> Exec(cmd) in NewOps(CleanupSpec(w), body)
  {
    var start, e := CleanupSpec(w), CleanupSpec(body);
    NewOpsAppended(w, start, CLEANUP_OPS);
    NewOpsAppended(body, e, CLEANUP_OPS);
    NewOpsChain(w, start, body);
    NewOpsChain(w, body, e);
  }

  /** A run of `main` keeps every checkpoint, deletes only the listing and
   *  scratch files, and leaves none of them behind, whether it returned
   *  early, joined the videos or failed. It analyses no input whose `.trf`
   *  checkpoint existed when it started and transforms no input whose
   *  stabilized video existed, so that a run that failed is resumed from its
   *  checkpoints. */
  lemma RunFrame(w: World, args: seq<string>, oracle: Oracle, x: Path)
    ensures var e := RunSpec(w, args, oracle);
            KeepsDurable(w, e.world) && DeletesOnly(NewOps(w, e.world), SCRATCH) &&
            (forall p :: p in SCRATCH ==> p !in e.world.files) &&
            ('.' in x && TransformsPath(BaseName(x).value) in w.files ==> Exec(Analyse(x)) !in NewOps(w, e.world)) &&
            ('.' in x && StabilizedPath(BaseName(x).value) in w.files &&
             StabilizedPath(BaseName(x).value) != TEMP_STABILIZED ==>
               Exec(Transform(x, TEMP_STABILIZED)) !in NewOps(w, e.world))
  {
    var start := CleanupSpec(w);
    var early, output := EarlyOutcome(start, args), OutputPath(args);
    var body := Body(start, Listing(start), early, output, oracle).world;
    BodyFrame(start, Listing(start), early, output, oracle);
    BetweenCleanups(w, body);
    CommandsBetweenCleanups(w, body, Analyse(x));
    CommandsBetweenCleanups(w, body, Transform(x, TEMP_STABILIZED));
    if '.' in x {
      BodyNoRedo(start, Listing(start), early, output, oracle, x);
      ArtifactPaths(BaseName(x).value, BaseName(x).value);
      ScratchOutsideWorkFolder();
      assert TransformsPath(BaseName(x).value) in w.files ==> TransformsPath(BaseName(x).value) in start.files;
      assert StabilizedPath(BaseName(x).value) in w.files && StabilizedPath(BaseName(x).value) != TEMP_STABILIZED ==>
        StabilizedPath(BaseName(x).value) in start.files;
    }
  }

  /** `main`'s guards, in order: an output name without a '.' throws, one
   *  whose suffix is not ".mp4" (in any case) returns, and only then does an
   *  existing output make it return; otherwise the work goes ahead. */
  lemma Guards(start: World, args: seq<string>)
    ensures var early := EarlyOutcome(start, args);
            var output := OutputPath(args);
            var name := FileName(output);
            var mp4 := |name| >= 4 && EqualsIgnoreCase(name[|name| - 4..], VIDEO_FILE_SUFFIX);
            ('.' !in name ==> early == Some(Failed(IndexOutOfBounds(name)))) &&
            ('.' in name && !mp4 ==> early == Some(BadSuffix)) &&
            ('.' in name && mp4 && ExistencePath(output) in start.files ==> early == Some(NothingToDo)) &&
            ('.' in name && mp4 && ExistencePath(output) !in start.files ==> early == None)
  {
    var name := FileName(OutputPath(args));
    if '.' in name {
      OutputSuffixCheck(name);
    }
  }

  /** A run that a guard ends early reports that guard's outcome, and its
   *  only effects are the two cleanups. */
  lemma EarlyReturn(w: World, args: seq<string>, oracle: Oracle)
    ensures var e := RunSpec(w, args, oracle);
            var early := EarlyOutcome(CleanupSpec(w), args);
            early.Some? ==> e.outcome == early.value && e.world == CleanupSpec(CleanupSpec(w))
  {
    var start := CleanupSpec(w);
    if EarlyOutcome(start, args).Some? {
      assert Body(start, Listing(start), EarlyOutcome(start, args), OutputPath(args), oracle).world == start;
    }
  }

  /** Past the guards, the first call after the cleanup creates the work
   *  folder: nothing is stabilized or joined before it. */
  lemma WorkStartsWithFolder(w: World, inputs: seq<Path>, output: Path, oracle: Oracle)
    ensures var e := WorkOn(w, inputs, output, oracle);
            |NewOps(w, e.world)| > 0 && NewOps(w, e.world)[0] == MakeFolder(WORK_FOLDER)
  {
    var e := WorkOn(w, inputs, output, oracle);
    var folder := AfterMakeFolder(w, WORK_FOLDER);
    WorkFrame(w, inputs, output, oracle);
    if FolderError(w, WORK_FOLDER).None? {
      var s := StabilizeAllSpec(folder, inputs, oracle);
      StabilizeAllFrame(folder, inputs, oracle);
      if s.result.Ok? {
        JoinFrame(s.world, s.result.value, output, oracle.concat);
      }
    }
    assert e.world.log[|w.log|] == MakeFolder(WORK_FOLDER);
  }

  /** When the videos were joined: the paths passed to the concatenation are
   *  the inputs' stabilized paths in the inputs' order, the manifest has one
   *  line per path, and the concatenation ran on that manifest as the last
   *  call of the work. */
  lemma JoinedWork(w: World, inputs: seq<Path>, output: Path, oracle: Oracle)
    requires multiset(inputs) == multiset(RegularFiles(w))
    ensures var e := WorkOn(w, inputs, output, oracle);
            e.outcome.Joined? ==>
              var paths := e.outcome.stabilized;
              e.outcome.inputs == inputs && JoinedAsListed(inputs, paths) &&
              EndsWith(e.world.log, JoinOps(paths, output))
  {
    var e := WorkOn(w, inputs, output, oracle);
    if e.outcome.Joined? {
      var folder := AfterMakeFolder(w, WORK_FOLDER);
      var s := StabilizeAllSpec(folder, inputs, oracle);
      assert s.result.Ok? && e.outcome.stabilized == s.result.value;
      StabilizedInOrder(folder, inputs, oracle);
      JoinFrame(s.world, s.result.value, output, oracle.concat);
      JoinedManifest(w, inputs, s.result.value);
    }
  }

  /** `log` ends with the calls `tail`. */
  predicate EndsWith(log: seq<Op>, tail: seq<Op>) {
    |tail| <= |log| && log[|log| - |tail|..] == tail
  }

  /** The calls that join `paths` into `output`: the listing is removed,
   *  written with the manifest, and handed to the concatenation. */
  function JoinOps(paths: seq<Path>, output: Path): seq<Op> {
    [Delete(LISTING_FILENAME), Write(LISTING_FILENAME, Manifest(paths)),
     Exec(Concat(LISTING_FILENAME, FileName(output)))]
  }

  /** `paths` are the stabilized paths of `inputs`, in the same order, and
   *  their manifest names each of them on a line of its own. */
  predicate JoinedAsListed(inputs: seq<Path>, paths: seq<Path>) {
    |paths| == |inputs| == |Manifest(paths)| &&
    forall i :: 0 <= i < |inputs| ==>
      '.' in inputs[i] && paths[i] == StabilizedPath(BaseName(inputs[i]).value) &&
      Manifest(paths)[i] == "file '" + paths[i] + "'"
  }

  /** Between the cleanups: when the body joined the videos, it joined the
   *  stabilized paths of the listed inputs in their order, and the
   *  concatenation on their manifest is its last call. */
  lemma BodyJoined(start: World, inputs: seq<Path>, early: Option<Outcome>, output: Path, oracle: Oracle)
    requires multiset(inputs) == multiset(RegularFiles(start))
    requires early.Some? ==> !early.value.Joined?
    ensures var b := Body(start, inputs, early, output, oracle);
            b.outcome.Joined? ==>
              b.outcome.inputs == inputs && JoinedAsListed(inputs, b.outcome.stabilized) &&
              EndsWith(b.world.log, JoinOps(b.outcome.stabilized, output))
  {
    if early.None? {
      JoinedWork(start, inputs, output, oracle);
    }
  }


  /** The final cleanup comes right after the last calls of the body. */
  lemma CleanupAfter(body: World, tail: seq<Op>)
    requires EndsWith(body.log, tail)
    ensures EndsWith(CleanupSpec(body).log, tail + CLEANUP_OPS)
  {
    var e := CleanupSpec(body);
    assert e.log[|e.log| - |tail| - |CLEANUP_OPS|..] == body.log[|body.log| - |tail|..] + CLEANUP_OPS;
  }

  /** When `main` joined the videos, it took as inputs the regular files of
   *  the current folder in sorted order, each once, joined their stabilized
   *  paths in that order, with one manifest line `file 'vidproc/<base>.mp4'`
   *  per input, and ran the concatenation just before the final cleanup. */
  lemma JoinedInSortedOrder(w: World, args: seq<string>, oracle: Oracle)
    ensures var e := RunSpec(w, args, oracle);
            e.outcome.Joined? ==>
              var inputs, paths := e.outcome.inputs, e.outcome.stabilized;
              Sorted(inputs) && multiset(inputs) == multiset(RegularFiles(CleanupSpec(w))) &&
              JoinedAsListed(inputs, paths) &&
              EndsWith(e.world.log, JoinOps(paths, OutputPath(args)) + CLEANUP_OPS)
  {
    var start := CleanupSpec(w);
    var early, output := EarlyOutcome(start, args), OutputPath(args);
    var b := Body(start, Listing(start), early, output, oracle);
    BodyJoined(start, Listing(start), early, output, oracle);
    if b.outcome.Joined? {
      CleanupAfter(b.world, JoinOps(b.outcome.stabilized, output));
    }
  }

  /** The manifest of the stabilized paths of plain file names: one line
   *  `file '<path>'` per path. */
  lemma JoinedManifest(start: World, inputs: seq<Path>, paths: seq<Path>)
    requires multiset(inputs) == multiset(RegularFiles(start)) && |paths| == |inputs|
    requires forall i :: 0 <= i < |inputs| ==>
               '.' in inputs[i] && paths[i] == StabilizedPath(BaseName(inputs[i]).value)
    ensures JoinedAsListed(inputs, paths)
  {
    forall i | 0 <= i < |paths|
      ensures Manifest(paths)[i] == "file '" + paths[i] + "'"
    {
      assert inputs[i] in multiset(RegularFiles(start));
      BaseNameOfPlainName(inputs[i]);
      ManifestLineOfStabilized(BaseName(inputs[i]).value);
    }
  }
}
