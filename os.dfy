/**
 * The operating-system filesystem as the core uses it: a map from path to
 * contents, with the four calls os.Stat, os.OpenFile (write-only, create,
 * no truncation), File.Write and File.Close. Each call may fail; which one
 * does is the environment's choice, made nondeterministically here.
 */
module Os {
  import opened Types

  /** An open file. The only write made through it starts at offset 0. */
  datatype File = File(path: Path)

  /**
   * The contents after writing data at offset 0 over prior contents: the
   * open does not truncate, so a longer prior file keeps its tail.
   */
  function WriteAt0(prior: Bytes, data: Bytes): Bytes {
    if |data| < |prior| then data + prior[|data|..] else data
  }

  /** The written bytes always come first; only a longer prior file leaves anything after them. */
  lemma WriteAt0Prefix(prior: Bytes, data: Bytes)
    ensures var r := WriteAt0(prior, data);
      && r[..|data|] == data
      && (|data| >= |prior| ==> r == data)
      && (|data| < |prior| ==> |r| == |prior| && r[|data|..] == prior[|data|..])
  {
  }

  class FileSystem {
    var files: map<Path, Bytes>

    constructor (initial: map<Path, Bytes>)
      ensures files == initial
    {
      files := initial;
    }

    /** os.Stat: reports success only for a file that exists; it may also fail on one. */
    method Stat(name: Path) returns (err: Option<Error>)
      ensures err.None? ==> name in files
      ensures err.Some? ==> err.value == PathError(StatOp, name)
    {
      err := Some(PathError(StatOp, name));
      if name in files {
        if * {
          err := None;
        }
      }
    }

    /** os.OpenFile(name, O_WRONLY|O_CREATE): creates an empty file if none exists, keeps an existing one as it is. */
    method OpenFile(name: Path) returns (r: Result<File, Error>)
      modifies this
      ensures r.Success? ==> r.value == File(name)
      ensures r.Success? ==> files == old(files)[name := if name in old(files) then old(files)[name] else []]
      ensures r.Failure? ==> r.error == PathError(OpenOp, name) && files == old(files)
    {
      if * {
        files := files[name := if name in files then files[name] else []];
        r := Success(File(name));
      } else {
        r := Failure(PathError(OpenOp, name));
      }
    }

    /** File.Write at offset 0: writes n bytes of data, all of them unless it fails. */
    method Write(f: File, data: Bytes) returns (n: nat, err: Option<Error>)
      requires f.path in files
      modifies this
      ensures n <= |data|
      ensures err.None? ==> n == |data|
      ensures err.Some? ==> err.value == PathError(WriteOp, f.path)
      ensures files == old(files)[f.path := WriteAt0(old(files)[f.path], data[..n])]
    {
      if * {
        n, err := |data|, None;
      } else {
        n :| n <= |data|;
        err := Some(PathError(WriteOp, f.path));
      }
      files := files[f.path := WriteAt0(files[f.path], data[..n])];
    }

    /** File.Close: changes no contents, and may fail. */
    method Close(f: File) returns (err: Option<Error>)
      ensures err.Some? ==> err.value == PathError(CloseOp, f.path)
    {
      err := None;
      if * {
        err := Some(PathError(CloseOp, f.path));
      }
    }
  }
}
