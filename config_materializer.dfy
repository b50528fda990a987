/**
 * Prepare and its ensureExists closure: pick the target file and builder
 * from the boot mode, and write the built configuration only when the
 * target does not exist yet.
 */
module ConfigMaterializer {
  import opened Types
  import opened Boot
  import opened Externals
  import opened VisorConfigBuilder
  import opened HypervisorConfigBuilder
  import opened Os

  /** The value a builder returns (Go's interface{} result of a genFn). */
  datatype NodeConfig = VisorNode(visor: VisorConfig) | HypervisorNode(hypervisor: HypervisorConfig)

  /** The two genFn values Prepare chooses between. */
  datatype Builder = VisorBuilder | HypervisorBuilder

  /** The file a mode writes and the builder that fills it. */
  datatype Job = Job(path: Path, builder: Builder)

  /** json.MarshalIndent(conf, "", "\t"): an encoder the model cannot see, which may fail. */
  type Marshal = NodeConfig -> Result<Bytes, Error>

  /** The steps of one run, in the order they happen. */
  datatype Step = StatStep | OpenStep | BuildStep | MarshalStep | WriteStep | CloseStep

  /**
   * The environment's choices in one run: whether Stat failed on an existing
   * file, whether open, write and close failed, and how many bytes a failing
   * write got out. A choice that does not apply to a run is ignored.
   */
  datatype Trace = Trace(statFailed: bool, openFailed: bool, writeFailed: bool, written: nat, closeFailed: bool)

  const QUIET := Trace(false, false, false, 0, false)

  /** What a run returns and leaves behind. */
  datatype Run = Run(err: Option<Error>, files: map<Path, Bytes>, steps: seq<Step>)

  const ALL_STEPS := [StatStep, OpenStep, BuildStep, MarshalStep, WriteStep, CloseStep]

  /** The mode switch of Prepare; an unrecognised mode has no job. */
  function Dispatch(conf: Config, mode: Mode): Option<Job> {
    match mode
    case HypervisorMode => Some(Job(conf.hypervisorConf, HypervisorBuilder))
    case VisorMode => Some(Job(conf.visorConf, VisorBuilder))
    case OtherMode(_) => None
  }

  /** What the chosen builder returns. */
  function Generate(builder: Builder, conf: Config, bp: Params, env: Env, ent: Entropy): Result<NodeConfig, Error> {
    match builder
    case VisorBuilder =>
      var v := VisorConfigOf(bp, env, ent);
      if v.Success? then Success(VisorNode(v.value)) else Failure(v.error)
    case HypervisorBuilder =>
      var h := HypervisorConfigOf(conf, bp, env, ent);
      if h.Success? then Success(HypervisorNode(h.value)) else Failure(h.error)
  }

  /** The bytes to be written: the builder's output, serialised; the first error otherwise. */
  function Encoded(built: Result<NodeConfig, Error>, marshal: Marshal): Result<Bytes, Error> {
    if built.Failure? then Failure(built.error) else marshal(built.value)
  }

  /** The ensureExists closure, given the builder's result and the environment's choices. */
  function EnsureExistsSpec(files: map<Path, Bytes>, name: Path, built: Result<NodeConfig, Error>,
                            marshal: Marshal, t: Trace): Run
  {
    if name in files && !t.statFailed then
      Run(None, files, [StatStep])
    else if t.openFailed then
      Run(Some(PathError(OpenOp, name)), files, [StatStep, OpenStep])
    else
      var created := files[name := if name in files then files[name] else []];
      if built.Failure? then
        Run(Some(built.error), created, [StatStep, OpenStep, BuildStep])
      else
        var raw := marshal(built.value);
        if raw.Failure? then
          Run(Some(raw.error), created, [StatStep, OpenStep, BuildStep, MarshalStep])
        else
          var n := if t.writeFailed && t.written < |raw.value| then t.written else |raw.value|;
          var err :=
            if t.writeFailed then Some(PathError(WriteOp, name))
            else if t.closeFailed then Some(PathError(CloseOp, name))
            else None;
          Run(err, created[name := WriteAt0(created[name], raw.value[..n])], ALL_STEPS)
  }

  /** Prepare, given the environment's choices. */
  function PrepareSpec(files: map<Path, Bytes>, conf: Config, bp: Params, env: Env, ent: Entropy,
                       marshal: Marshal, t: Trace): Run
  {
    var job := Dispatch(conf, bp.mode);
    if job.None? then Run(Some(InvalidMode), files, [])
    else EnsureExistsSpec(files, job.value.path, Generate(job.value.builder, conf, bp, env, ent), marshal, t)
  }

  /** Runs the chosen genFn. */
  method Build(builder: Builder, conf: Config, bp: Params, env: Env, ent: Entropy)
    returns (r: Result<NodeConfig, Error>)
    ensures r == Generate(builder, conf, bp, env, ent)
  {
    match builder
    case VisorBuilder =>
      var v := GenerateVisorConfig(bp, env, ent);
      r := if v.Success? then Success(VisorNode(v.value)) else Failure(v.error);
    case HypervisorBuilder =>
      var h := GenerateHypervisorConfig(conf, bp, env, ent);
      r := if h.Success? then Success(HypervisorNode(h.value)) else Failure(h.error);
  }

  /** The ensureExists closure: stat, then open, build, serialise, write and close. */
  method EnsureExists(fs: FileSystem, name: Path, builder: Builder, conf: Config, bp: Params,
                      env: Env, ent: Entropy, marshal: Marshal)
    returns (err: Option<Error>, ghost t: Trace, ghost steps: seq<Step>)
    modifies fs
    ensures Run(err, fs.files, steps) ==
              EnsureExistsSpec(old(fs.files), name, Generate(builder, conf, bp, env, ent), marshal, t)
  {
    t, steps := QUIET, [StatStep];
    var statErr := fs.Stat(name);
    if statErr.None? {
      return None, t, steps;
    }
    t := t.(statFailed := true);
    var file := fs.OpenFile(name);
    steps := steps + [OpenStep];
    if file.Failure? {
      t := t.(openFailed := true);
      return Some(file.error), t, steps;
    }
    var f := file.value;
    var built := Build(builder, conf, bp, env, ent);
    steps := steps + [BuildStep];
    if built.Failure? {
      return Some(built.error), t, steps;
    }
    var raw := marshal(built.value);
    steps := steps + [MarshalStep];
    if raw.Failure? {
      return Some(raw.error), t, steps;
    }
    var n, writeErr := fs.Write(f, raw.value);
    var closeErr := fs.Close(f);
    steps := steps + [WriteStep, CloseStep];
    t := t.(writeFailed := writeErr.Some?, written := n, closeFailed := closeErr.Some?);
    err := writeErr;
    if err.None? {
      err := closeErr;
    }
  }

  /** Prepare: the mode switch over ensureExists. */
  method Prepare(fs: FileSystem, conf: Config, bp: Params, env: Env, ent: Entropy, marshal: Marshal)
    returns (err: Option<Error>, ghost t: Trace, ghost steps: seq<Step>)
    modifies fs
    ensures Run(err, fs.files, steps) == PrepareSpec(old(fs.files), conf, bp, env, ent, marshal, t)
  {
    match bp.mode
    case HypervisorMode =>
      err, t, steps := EnsureExists(fs, conf.hypervisorConf, HypervisorBuilder, conf, bp, env, ent, marshal);
    case VisorMode =>
      err, t, steps := EnsureExists(fs, conf.visorConf, VisorBuilder, conf, bp, env, ent, marshal);
    case OtherMode(_) =>
      err, t, steps := Some(InvalidMode), QUIET, [];
  }

  /** The file a recognised mode targets. */
  function Target(conf: Config, mode: Mode): Path {
    if mode.HypervisorMode? then conf.hypervisorConf else conf.visorConf
  }

  /** An unrecognised mode returns InvalidMode and takes no step at all. */
  lemma InvalidModeTouchesNothing(files: map<Path, Bytes>, conf: Config, bp: Params, env: Env,
                                  ent: Entropy, marshal: Marshal, t: Trace)
    requires bp.mode.OtherMode?
    ensures PrepareSpec(files, conf, bp, env, ent, marshal, t) == Run(Some(InvalidMode), files, [])
  {
  }

  /**
   * A hypervisor run touches only conf.HypervisorConf and a visor run only
   * conf.VisorConf: of the files the model tracks, every other one keeps its
   * contents, and no other one appears.
   */
  lemma OnlyTargetTouched(files: map<Path, Bytes>, conf: Config, bp: Params, env: Env,
                          ent: Entropy, marshal: Marshal, t: Trace)
    requires !bp.mode.OtherMode?
    ensures var run := PrepareSpec(files, conf, bp, env, ent, marshal, t);
      && run.files.Keys <= files.Keys + {Target(conf, bp.mode)}
      && forall p :: p in files && p != Target(conf, bp.mode) ==> p in run.files && run.files[p] == files[p]
  {
  }

  /** When Stat sees the target, the run succeeds, leaves every file as it was and never reaches the builder. */
  lemma ExistingTargetUntouched(files: map<Path, Bytes>, conf: Config, bp: Params, env: Env,
                                ent: Entropy, marshal: Marshal, t: Trace)
    requires !bp.mode.OtherMode?
    requires Target(conf, bp.mode) in files && !t.statFailed
    ensures PrepareSpec(files, conf, bp, env, ent, marshal, t) == Run(None, files, [StatStep])
    ensures BuildStep !in PrepareSpec(files, conf, bp, env, ent, marshal, t).steps
  {
  }

  /**
   * On an absent target the run succeeds exactly when open, build,
   * serialisation, write and close all do, and then the new file holds
   * exactly the serialised configuration.
   */
  lemma AbsentTargetWritten(files: map<Path, Bytes>, conf: Config, bp: Params, env: Env,
                            ent: Entropy, marshal: Marshal, t: Trace)
    requires !bp.mode.OtherMode?
    requires Target(conf, bp.mode) !in files
    ensures var run := PrepareSpec(files, conf, bp, env, ent, marshal, t);
      var raw := Encoded(Generate(Dispatch(conf, bp.mode).value.builder, conf, bp, env, ent), marshal);
      && (run.err.None? <==> !t.openFailed && raw.Success? && !t.writeFailed && !t.closeFailed)
      && (run.err.None? ==> run.files == files[Target(conf, bp.mode) := raw.value] && run.steps == ALL_STEPS)
  {
    var raw := Encoded(Generate(Dispatch(conf, bp.mode).value.builder, conf, bp, env, ent), marshal);
    if raw.Success? {
      assert raw.value[..|raw.value|] == raw.value;
      WriteAt0Prefix([], raw.value);
    }
  }

  /**
   * If building or serialising fails after the create, that error is
   * returned, nothing is written, and the target is left behind empty.
   */
  lemma BuildFailureLeavesEmptyFile(files: map<Path, Bytes>, conf: Config, bp: Params, env: Env,
                                    ent: Entropy, marshal: Marshal, t: Trace)
    requires !bp.mode.OtherMode?
    requires Target(conf, bp.mode) !in files && !t.openFailed
    requires Encoded(Generate(Dispatch(conf, bp.mode).value.builder, conf, bp, env, ent), marshal).Failure?
    ensures var run := PrepareSpec(files, conf, bp, env, ent, marshal, t);
      && run.err == Some(Encoded(Generate(Dispatch(conf, bp.mode).value.builder, conf, bp, env, ent), marshal).error)
      && run.files == files[Target(conf, bp.mode) := []]
      && WriteStep !in run.steps
  {
  }

  /**
   * Once the file is open and the bytes are ready, close is always called;
   * a write error is returned even if close fails too, and a close error is
   * returned only after a successful write.
   */
  lemma WriteErrorTakesPriority(files: map<Path, Bytes>, conf: Config, bp: Params, env: Env,
                                ent: Entropy, marshal: Marshal, t: Trace)
    requires !bp.mode.OtherMode?
    requires !(Target(conf, bp.mode) in files && !t.statFailed) && !t.openFailed
    requires Encoded(Generate(Dispatch(conf, bp.mode).value.builder, conf, bp, env, ent), marshal).Success?
    ensures var run := PrepareSpec(files, conf, bp, env, ent, marshal, t);
      var name := Target(conf, bp.mode);
      && run.steps == ALL_STEPS
      && run.err == (if t.writeFailed then Some(PathError(WriteOp, name))
                     else if t.closeFailed then Some(PathError(CloseOp, name))
                     else None)
  {
  }

  /**
   * Idempotence: after a successful run, a second run for the same mode
   * (with any entropy, collaborators and serialiser) whose Stat sees the
   * file is a no-op that succeeds.
   */
  lemma SecondRunIsNoop(files: map<Path, Bytes>, conf: Config, bp1: Params, bp2: Params,
                        env1: Env, env2: Env, ent1: Entropy, ent2: Entropy,
                        marshal1: Marshal, marshal2: Marshal, t1: Trace, t2: Trace)
    requires bp1.mode == bp2.mode
    requires PrepareSpec(files, conf, bp1, env1, ent1, marshal1, t1).err.None?
    requires !t2.statFailed
    ensures var first := PrepareSpec(files, conf, bp1, env1, ent1, marshal1, t1);
      PrepareSpec(first.files, conf, bp2, env2, ent2, marshal2, t2) == Run(None, first.files, [StatStep])
  {
  }

  /**
   * A run that fails in the builder or the encoder leaves an empty target,
   * and every later run whose Stat sees it succeeds without filling it: the
   * failed materialisation sticks until someone removes the file.
   */
  lemma FailedBuildSticks(files: map<Path, Bytes>, conf: Config, bp: Params, env1: Env, env2: Env,
                          ent1: Entropy, ent2: Entropy, marshal1: Marshal, marshal2: Marshal,
                          t1: Trace, t2: Trace)
    requires !bp.mode.OtherMode?
    requires Target(conf, bp.mode) !in files && !t1.openFailed
    requires Encoded(Generate(Dispatch(conf, bp.mode).value.builder, conf, bp, env1, ent1), marshal1).Failure?
    requires !t2.statFailed
    ensures var first := PrepareSpec(files, conf, bp, env1, ent1, marshal1, t1);
      && first.err.Some?
      && first.files[Target(conf, bp.mode)] == []
      && PrepareSpec(first.files, conf, bp, env2, ent2, marshal2, t2) == Run(None, first.files, [StatStep])
  {
  }

  /**
   * The write-once policy rests on Stat: if Stat fails on an existing,
   * longer file and the rest succeeds, the open does not truncate and the
   * new bytes overwrite only a prefix, keeping the old tail after them.
   */
  lemma StatFailureOverwritesPrefix(files: map<Path, Bytes>, conf: Config, bp: Params, env: Env,
                                    ent: Entropy, marshal: Marshal, t: Trace)
    requires !bp.mode.OtherMode?
    requires Target(conf, bp.mode) in files && t.statFailed && !t.openFailed && !t.writeFailed
    requires Encoded(Generate(Dispatch(conf, bp.mode).value.builder, conf, bp, env, ent), marshal).Success?
    requires |Encoded(Generate(Dispatch(conf, bp.mode).value.builder, conf, bp, env, ent), marshal).value|
               < |files[Target(conf, bp.mode)]|
    ensures var run := PrepareSpec(files, conf, bp, env, ent, marshal, t);
      var raw := Encoded(Generate(Dispatch(conf, bp.mode).value.builder, conf, bp, env, ent), marshal).value;
      var prior := files[Target(conf, bp.mode)];
      && run.files[Target(conf, bp.mode)] == raw + prior[|raw|..]
      && run.files[Target(conf, bp.mode)] != raw
  {
  }
}
