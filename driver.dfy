/** `FixedMLIRCompiler`'s dealings with the external `mlir-opt` binary: the
    start-up probe, the command line `compile_mlir` builds, and how it turns the
    tool's outcome into IR text or a diagnostic. The process itself is not
    modelled: its outcome is an input. */
module Driver {
  import opened Wrappers
  import opened Text

  /** The default tool path of the compiler. */
  const MlirOpt: string := "mlir-opt"

  /** The flags `compile_mlir` uses when it is given no passes. */
  const DefaultFlags: seq<string> := ["--canonicalize", "--cse", "--symbol-dce"]

  /** How one run of `mlir-opt` ended: it exited with a code and captured output,
      it exceeded its timeout, or starting it raised an exception. */
  datatype ToolRun =
    | Exited(code: int, stdout: string, stderr: string)
    | TimedOut
    | Raised(message: string)

  /** How the `mlir-opt --version` probe ended. */
  datatype Probe =
    | ProbeExited(code: int, stderr: string)
    | ProbeNotFound
    | ProbeRaised(message: string)

  /** `verify_mlir_tools`: None when the probe succeeded, otherwise the message of
      the RuntimeError it raises. A non-zero exit raises inside the `try`, so its
      message is wrapped a second time by the generic handler. */
  function VerifyTools(probe: Probe): (e: Option<string>)
    ensures e.None? <==> probe.ProbeExited? && probe.code == 0
    ensures probe.ProbeExited? && probe.code != 0 ==>
              e == Some("MLIR tools verification failed: mlir-opt not working: " + probe.stderr)
    ensures probe.ProbeNotFound? ==>
              e == Some("MLIR tools not found in PATH. Please add MLIR bin directory to PATH.")
    ensures probe.ProbeRaised? ==> e == Some("MLIR tools verification failed: " + probe.message)
    ensures e.Some? ==> |e.value| > 0
  {
    match probe
    case ProbeExited(code, stderr) =>
      if code != 0 then Some("MLIR tools verification failed: mlir-opt not working: " + stderr)
      else None
    case ProbeNotFound =>
      Some("MLIR tools not found in PATH. Please add MLIR bin directory to PATH.")
    case ProbeRaised(message) =>
      Some("MLIR tools verification failed: " + message)
  }

  /** The `passes` argument of `compile_mlir`: absent, a list of pass names, or
      an already rendered pipeline string. */
  datatype PassesArg = NoPasses | PassList(names: seq<string>) | PassString(text: string)

  /** Python truthiness of the `passes` argument. */
  predicate Given(arg: PassesArg)
  {
    match arg
    case NoPasses => false
    case PassList(names) => |names| > 0
    case PassString(text) => |text| > 0
  }

  /** The command line `compile_mlir` runs on the input file. */
  function Command(tool: string, file: string, arg: PassesArg): (cmd: seq<string>)
    ensures |cmd| >= 3 && cmd[0] == tool && cmd[1] == file
    ensures !Given(arg) <==> cmd[2..] == DefaultFlags
    ensures Given(arg) ==> |cmd| == 3 && "--pass-pipeline=" <= cmd[2]
    ensures arg.PassList? && Given(arg) ==>
              cmd == [tool, file, "--pass-pipeline=builtin.module(" + Join(",", arg.names) + ")"]
    ensures arg.PassString? && Given(arg) ==> cmd == [tool, file, "--pass-pipeline=" + arg.text]
  {
    if !Given(arg) then [tool, file] + DefaultFlags
    else match arg
      case PassList(names) => [tool, file, "--pass-pipeline=builtin.module(" + Join(",", names) + ")"]
      case PassString(text) => [tool, file, "--pass-pipeline=" + text]
  }

  /** Proof helper: string concatenation regroups. */
  lemma Regroup(a: string, b: string, c: string, d: string)
    ensures a + ((b + c) + d) == ((a + b) + c) + d
  {
  }

  /** Proof helper: the list flag is the string flag followed by the module prefix. */
  lemma PipelineFlagPrefix()
    ensures "--pass-pipeline=builtin.module(" == "--pass-pipeline=" + "builtin.module("
  {
  }

  /** A non-empty list of names and the `builtin.module(...)` string rendered from
      it reach the tool as the same command line. */
  lemma ListAndStringAgree(tool: string, file: string, names: seq<string>)
    requires |names| > 0
    ensures Command(tool, file, PassList(names))
         == Command(tool, file, PassString("builtin.module(" + Join(",", names) + ")"))
  {
    var joined := Join(",", names);
    var text := "builtin.module(" + joined + ")";
    assert Given(PassList(names)) && Given(PassString(text));
    assert Command(tool, file, PassString(text)) == [tool, file, "--pass-pipeline=" + text];
    assert Command(tool, file, PassList(names)) == [tool, file, "--pass-pipeline=builtin.module(" + joined + ")"];
    PipelineFlagPrefix();
    Regroup("--pass-pipeline=", "builtin.module(", joined, ")");
  }

  /** What `compile_mlir` returns: the tool's stdout, or a diagnostic. */
  datatype CompileResult = Compiled(ir: string) | CompileFailed(diagnostic: string)

  /** `compile_mlir` after the tool has run: exit code 0 yields stdout (even an
      empty one); otherwise the raw stderr, or a fixed text for a timeout or
      an exception. */
  function CompileOutcome(run: ToolRun): (r: CompileResult)
    ensures r.Compiled? <==> run.Exited? && run.code == 0
    ensures r.Compiled? ==> r.ir == run.stdout
    ensures run.Exited? && run.code != 0 ==> r == CompileFailed(run.stderr)
    ensures run.TimedOut? ==> r == CompileFailed("MLIR compilation timed out")
    ensures run.Raised? ==> r == CompileFailed("MLIR compilation error: " + run.message)
  {
    match run
    case Exited(code, stdout, stderr) =>
      if code != 0 then CompileFailed(stderr) else Compiled(stdout)
    case TimedOut => CompileFailed("MLIR compilation timed out")
    case Raised(message) => CompileFailed("MLIR compilation error: " + message)
  }

  /** The path of the file `compile_mlir` writes the IR to. */
  function InputFile(tempDir: string): string
  {
    tempDir + "/input.mlir"
  }

  /** `compile_mlir(code, passes)`, with `mlirOpt` standing for the external tool
      run on the written input file: it maps a command line to its outcome. */
  function CompileMlir(mlirOpt: seq<string> -> ToolRun, tempDir: string, arg: PassesArg): (r: CompileResult)
    ensures !Given(arg) ==>
              r == CompileOutcome(mlirOpt([MlirOpt, InputFile(tempDir), "--canonicalize", "--cse", "--symbol-dce"]))
    ensures arg.PassList? && Given(arg) ==>
              r == CompileOutcome(mlirOpt([MlirOpt, InputFile(tempDir),
                                           "--pass-pipeline=builtin.module(" + Join(",", arg.names) + ")"]))
    ensures arg.PassString? && Given(arg) ==>
              r == CompileOutcome(mlirOpt([MlirOpt, InputFile(tempDir), "--pass-pipeline=" + arg.text]))
  {
    assert [MlirOpt, InputFile(tempDir)] + DefaultFlags
        == [MlirOpt, InputFile(tempDir), "--canonicalize", "--cse", "--symbol-dce"];
    CompileOutcome(mlirOpt(Command(MlirOpt, InputFile(tempDir), arg)))
  }
}
