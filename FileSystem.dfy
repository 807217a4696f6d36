/** The part of the file system the stabilizer sees: which files exist (and
 *  what they hold), and the trace of file operations and tool runs it issues.
 *  Each operation is a function on `World`; the class `Disk` holds the state
 *  that the program's file helpers change in place. */
module FileSystem {
  import opened Names
  import opened Order

  /** What a file holds: data written by a tool or by the user, identified
   *  only by a stamp, or the lines of the concatenation listing. */
  datatype Content = Data(stamp: nat) | Lines(lines: seq<string>)

  /** The three shapes of external tool invocation. */
  datatype Command =
    | Analyse(input: Path)
    | Transform(input: Path, output: Path)
    | Concat(listing: Path, output: Path)

  /** An issued call, recorded whether or not it changed anything. */
  datatype Op =
    | Delete(path: Path)
    | Copy(src: Path, dest: Path)
    | Move(src: Path, dest: Path)
    | MakeFolder(path: Path)
    | Write(path: Path, lines: seq<string>)
    | Exec(cmd: Command)

  datatype Error =
    | NoSuchFile(path: Path)
    | FileAlreadyExists(path: Path)
    | IndexOutOfBounds(text: string)

  datatype Result<T> = Ok(value: T) | Err(error: Error)

  datatype World = World(files: map<Path, Content>, log: seq<Op>)

  /** The calls issued on the way from `w` to `w'`. */
  function NewOps(w: World, w': World): seq<Op> {
    if |w.log| <= |w'.log| then w'.log[|w.log|..] else []
  }

  /** The calls issued are those appended to the log. */
  lemma NewOpsAppended(w: World, w': World, ops: seq<Op>)
    requires w'.log == w.log + ops
    ensures NewOps(w, w') == ops
  {
    assert w'.log[|w.log|..] == ops;
  }

  /** The calls issued over two stretches are those of the first followed by
   *  those of the second. */
  lemma NewOpsChain(w: World, w': World, w'': World)
    requires w.log <= w'.log <= w''.log
    ensures NewOps(w, w'') == NewOps(w, w') + NewOps(w', w'')
  {
    assert w''.log[|w.log|..] == w'.log[|w.log|..] + w''.log[|w'.log|..];
  }

  /** `Files.deleteIfExists`. */
  function AfterDelete(w: World, p: Path): (w': World)
    ensures p !in w'.files && w'.log == w.log + [Delete(p)]
    ensures forall q :: q != p ==> (q in w'.files <==> q in w.files)
    ensures forall q :: q in w'.files ==> w'.files[q] == w.files[q]
  {
    World(w.files - {p}, w.log + [Delete(p)])
  }

  /** Why `Files.copy` or `Files.move` without options throws, if it does: the
   *  source must exist, and the target must not unless it is the source. */
  function TransferError(w: World, src: Path, dest: Path): Option<Error> {
    if src !in w.files then Some(NoSuchFile(src))
    else if src != dest && dest in w.files then Some(FileAlreadyExists(dest))
    else None
  }

  /** `Files.copy`: never deletes or overwrites an existing file. */
  function AfterCopy(w: World, src: Path, dest: Path): (w': World)
    ensures w'.log == w.log + [Copy(src, dest)]
    ensures forall p :: p in w.files ==> p in w'.files && w'.files[p] == w.files[p]
    ensures TransferError(w, src, dest).None? ==> dest in w'.files && w'.files[dest] == w.files[src]
    ensures forall p :: p in w'.files && p !in w.files ==>
              p == dest && TransferError(w, src, dest).None?
  {
    var files := if TransferError(w, src, dest).None? then w.files[dest := w.files[src]] else w.files;
    World(files, w.log + [Copy(src, dest)])
  }

  /** `Files.move`: the source's content moves to the target; no other file
   *  is deleted or overwritten. */
  function AfterMove(w: World, src: Path, dest: Path): (w': World)
    ensures w'.log == w.log + [Move(src, dest)]
    ensures forall p :: p in w.files && p != src ==> p in w'.files && w'.files[p] == w.files[p]
    ensures TransferError(w, src, dest).None? ==> dest in w'.files && w'.files[dest] == w.files[src]
    ensures TransferError(w, src, dest).None? && src != dest ==> src !in w'.files
    ensures TransferError(w, src, dest).Some? ==> w'.files == w.files
    ensures forall p :: p in w'.files && p !in w.files ==> p == dest
  {
    var files :=
      if TransferError(w, src, dest).Some? || src == dest then w.files
      else (w.files - {src})[dest := w.files[src]];
    World(files, w.log + [Move(src, dest)])
  }

  /** Why `createFolder` throws: a regular file already has the folder's name. */
  function FolderError(w: World, name: Path): Option<Error> {
    if name in w.files then Some(FileAlreadyExists(name)) else None
  }

  function AfterMakeFolder(w: World, name: Path): (w': World)
    ensures w'.files == w.files && w'.log == w.log + [MakeFolder(name)]
  {
    World(w.files, w.log + [MakeFolder(name)])
  }

  /** Writing the concatenation listing: the file holds exactly `lines`. */
  function AfterWrite(w: World, p: Path, lines: seq<string>): (w': World)
    ensures p in w'.files && w'.files[p] == Lines(lines)
    ensures forall q :: q != p ==> (q in w'.files <==> q in w.files)
    ensures forall q :: q in w.files && q != p ==> w'.files[q] == w.files[q]
    ensures w'.log == w.log + [Write(p, lines)]
  {
    World(w.files[p := Lines(lines)], w.log + [Write(p, lines)])
  }

  /** One tool run. Its exit status is never checked: all that matters
   *  afterwards is whether it left its output file, which `produced` decides. */
  function AfterRun(w: World, cmd: Command, output: Path, produced: Option<Content>): (w': World)
    ensures w'.log == w.log + [Exec(cmd)]
    ensures forall p :: p in w.files && p != output ==> p in w'.files && w'.files[p] == w.files[p]
    ensures forall p :: p in w'.files && p !in w.files ==> p == output
    ensures produced.Some? ==> output in w'.files && w'.files[output] == produced.value
    ensures produced.None? ==> w'.files == w.files
  {
    World(if produced.Some? then w.files[output := produced.value] else w.files, w.log + [Exec(cmd)])
  }

  /** The regular files directly in the current folder. */
  function RegularFiles(w: World): (s: set<Path>)
    ensures forall p :: p in s <==> p in w.files && SEPARATOR !in p
  {
    set p | p in w.files && SEPARATOR !in p
  }

  /** The file system, updated in place by the program's file helpers. */
  class Disk {
    var files: map<Path, Content>
    var log: seq<Op>

    function State(): World
      reads this
    {
      World(files, log)
    }

    constructor (initial: map<Path, Content>)
      ensures State() == World(initial, [])
    {
      files, log := initial, [];
    }

    /** `deleteFile`. */
    method DeleteFile(p: Path)
      modifies this
      ensures State() == AfterDelete(old(State()), p)
    {
      files := files - {p};
      log := log + [Delete(p)];
    }

    /** `copyFile`; `err` is the exception it throws, if any. */
    method CopyFile(src: Path, dest: Path) returns (err: Option<Error>)
      modifies this
      ensures err == TransferError(old(State()), src, dest)
      ensures State() == AfterCopy(old(State()), src, dest)
    {
      if src !in files {
        err := Some(NoSuchFile(src));
      } else if src != dest && dest in files {
        err := Some(FileAlreadyExists(dest));
      } else {
        err := None;
        files := files[dest := files[src]];
      }
      log := log + [Copy(src, dest)];
    }

    /** `moveFile`; `err` is the exception it throws, if any. */
    method MoveFile(src: Path, dest: Path) returns (err: Option<Error>)
      modifies this
      ensures err == TransferError(old(State()), src, dest)
      ensures State() == AfterMove(old(State()), src, dest)
    {
      if src !in files {
        err := Some(NoSuchFile(src));
      } else if src != dest && dest in files {
        err := Some(FileAlreadyExists(dest));
      } else {
        err := None;
        if src != dest {
          files := (files - {src})[dest := files[src]];
        }
      }
      log := log + [Move(src, dest)];
    }

    /** `createFolder`: succeeds when the folder exists or can be created. */
    method CreateFolder(name: Path) returns (err: Option<Error>)
      modifies this
      ensures err == FolderError(old(State()), name)
      ensures State() == AfterMakeFolder(old(State()), name)
    {
      err := if name in files then Some(FileAlreadyExists(name)) else None;
      log := log + [MakeFolder(name)];
    }

    /** Writes the concatenation listing, replacing what the file held. */
    method WriteLines(p: Path, lines: seq<string>)
      modifies this
      ensures State() == AfterWrite(old(State()), p, lines)
    {
      files := files[p := Lines(lines)];
      log := log + [Write(p, lines)];
    }

    /** `runCommand`: `produced` stands for what the tool leaves at `output`. */
    method RunCommand(cmd: Command, output: Path, produced: Option<Content>)
      modifies this
      ensures State() == AfterRun(old(State()), cmd, output, produced)
    {
      if produced.Some? {
        files := files[output := produced.value];
      }
      log := log + [Exec(cmd)];
    }

    /** `listFilesInFolder(".")`: the folder yields its regular files in an
     *  order of its own, and the listing sorts them. */
    method ListFilesInFolder() returns (listing: seq<Path>)
      ensures listing == SortedElements(RegularFiles(State()))
    {
      var remaining := RegularFiles(State());
      var enumerated: seq<Path> := [];
      while remaining != {}
        invariant multiset(enumerated) + multiset(remaining) == multiset(RegularFiles(State()))
        decreases |remaining|
      {
        var p :| p in remaining;
        assert multiset(remaining - {p}) + multiset{p} == multiset(remaining);
        enumerated := enumerated + [p];
        remaining := remaining - {p};
      }
      listing := Sort(enumerated);
      SortedUnique(listing, SortedElements(RegularFiles(State())));
    }
  }
}
