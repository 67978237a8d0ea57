/** `FixedMLIRAttentionEvaluator` and `evaluate_program`: compile the
    candidate's parameters into an optimized IR, benchmark it against the
    cached baseline, and assemble the result dictionary. */
module Evaluator {
  import opened Wrappers
  import opened Text
  import opened Params
  import opened Driver
  import opened Pipeline
  import opened Benchmark
  import opened Fitness

  /** A value of the result dictionary. */
  datatype ResultValue = RFloat(x: real) | RInt(i: int) | RBool(b: bool) | RStr(s: string)

  /** A key of the result dictionary; `KeyName` spells it. */
  datatype Key =
    | ErrorKey
    | SpeedupKey
    | RuntimeKey
    | ReferenceRuntimeKey
    | TargetSpeedupKey
    | AchievedTargetKey
    | RealMlirCompilationKey
    | IrSizeKey
    | BenchmarkWarningsKey
    | ExceptionKey
    | CompilationErrorKey
    | ParamKey(name: string)

  function KeyName(k: Key): string
  {
    match k
    case ErrorKey => "error"
    case SpeedupKey => "speedup"
    case RuntimeKey => "runtime"
    case ReferenceRuntimeKey => "reference_runtime"
    case TargetSpeedupKey => "target_speedup"
    case AchievedTargetKey => "achieved_target"
    case RealMlirCompilationKey => "real_mlir_compilation"
    case IrSizeKey => "ir_size"
    case BenchmarkWarningsKey => "benchmark_warnings"
    case ExceptionKey => "exception"
    case CompilationErrorKey => "compilation_error"
    case ParamKey(name) => "param_" + name
  }

  /** The result dictionary, keyed by `Key`. */
  type ResultDict = map<Key, ResultValue>

  /** What loading and calling the candidate program produced: an exception,
      no `optimize_attention` function, or the parameter dictionary. */
  datatype ProgramOutcome = ProgramRaised(message: string) | MissingOptimize | Returned(params: ParamSet)

  /** Everything `evaluate_program` learns from outside: the `mlir-opt
      --version` probe, the candidate program, the temporary directory, what
      mlir-opt does with each command line on the baseline input, and each
      lowering run for a given IR and shape. */
  datatype Environment = Environment(
    probe: Probe,
    program: ProgramOutcome,
    tempDir: string,
    mlirOpt: seq<string> -> ToolRun,
    lower: (string, Config) -> LowerRun)

  /** Every lowering run reports a non-negative elapsed time. */
  ghost predicate NonNegativeTimes(lower: (string, Config) -> LowerRun)
  {
    forall ir, c :: lower(ir, c).elapsed >= 0.0
  }

  /** `compile_with_optimizations`: a `TypeError` from the builder becomes
      "Optimization error: ..."; a failed compile "Optimization failed: ...". */
  function Optimized(tempDir: string, mlirOpt: seq<string> -> ToolRun, p: ParamSet): Result<string>
  {
    match Plan(p)
    case Err(e) => Err("Optimization error: " + e)
    case Ok(plan) =>
      match CompileMlir(mlirOpt, tempDir, PassString(PipelineText(Names(plan))))
      case Compiled(ir) => Ok(ir)
      case CompileFailed(d) => Err("Optimization failed: " + d)
  }

  /** The optimized compile runs mlir-opt once on the input file with the
      built pipeline, exactly as if the pass list itself had been passed; it
      succeeds exactly when that run exits 0, and yields its output. */
  lemma OptimizedCommand(tempDir: string, mlirOpt: seq<string> -> ToolRun, p: ParamSet)
    ensures Plan(p).Err? ==> Optimized(tempDir, mlirOpt, p) == Err("Optimization error: " + Plan(p).msg)
    ensures Plan(p).Ok? ==>
      var names := Names(Plan(p).value);
      var cmd := Command(MlirOpt, InputFile(tempDir), PassList(names));
      && cmd == [MlirOpt, InputFile(tempDir), "--pass-pipeline=" + PipelineText(names)]
      && (Optimized(tempDir, mlirOpt, p).Ok? <==> mlirOpt(cmd).Exited? && mlirOpt(cmd).code == 0)
      && (Optimized(tempDir, mlirOpt, p).Ok? ==> Optimized(tempDir, mlirOpt, p).value == mlirOpt(cmd).stdout)
      && (Optimized(tempDir, mlirOpt, p).Err? ==> "Optimization failed: " <= Optimized(tempDir, mlirOpt, p).msg)
      && (!(mlirOpt(cmd).Exited? && mlirOpt(cmd).code == 0) ==>
            Optimized(tempDir, mlirOpt, p) == Err("Optimization failed: " + CompileOutcome(mlirOpt(cmd)).diagnostic))
  {
    if Plan(p).Ok? {
      var names := Names(Plan(p).value);
      PlanFrame(p);
      ListAndStringAgree(MlirOpt, InputFile(tempDir), names);
      var text := PipelineText(names);
      assert Given(PassString(text));
    }
  }

  /** A sum over the test shapes divided by their number, as Python's `/`. */
  function Average(total: real): real
  {
    total / |TestConfigs| as real
  }

  lemma AverageOfThree(total: real)
    ensures 3.0 * Average(total) == total
  {
    assert |TestConfigs| == 3;
  }

  /** `get_reference_performance` when nothing is cached: 5.0 when the baseline
      does not compile with the default flags, otherwise the mean estimate of
      the compiled baseline over the three test shapes. */
  function ReferenceRuntime(tempDir: string, mlirOpt: seq<string> -> ToolRun, lower: (string, Config) -> LowerRun): real
  {
    match CompileMlir(mlirOpt, tempDir, NoPasses)
    case CompileFailed(_) => 5.0
    case Compiled(ir) => Average(TotalRuntime(ir, TestConfigs, lower))
  }

  /** The command line of the baseline compile. */
  function BaselineCommand(tempDir: string): seq<string>
  {
    [MlirOpt, InputFile(tempDir)] + DefaultFlags
  }

  /** The fallback: a baseline that does not exit 0 under the default flags
      gives exactly 5.0; one that does gives the mean of its three estimates. */
  lemma ReferenceFallback(tempDir: string, mlirOpt: seq<string> -> ToolRun, lower: (string, Config) -> LowerRun)
    ensures var run := mlirOpt(BaselineCommand(tempDir));
      && (!(run.Exited? && run.code == 0) ==> ReferenceRuntime(tempDir, mlirOpt, lower) == 5.0)
      && (run.Exited? && run.code == 0 ==>
            3.0 * ReferenceRuntime(tempDir, mlirOpt, lower) == TotalRuntime(run.stdout, TestConfigs, lower))
  {
    assert Command(MlirOpt, InputFile(tempDir), NoPasses) == BaselineCommand(tempDir);
    var run := mlirOpt(BaselineCommand(tempDir));
    if run.Exited? && run.code == 0 {
      AverageOfThree(TotalRuntime(run.stdout, TestConfigs, lower));
    }
  }

  lemma TestConfigsNonNegative()
    ensures forall k :: 0 <= k < |TestConfigs| ==> NonNegativeShape(TestConfigs[k])
  {
  }

  /** With non-negative lowering times the reference is non-negative. */
  lemma ReferenceNonNegative(tempDir: string, mlirOpt: seq<string> -> ToolRun, lower: (string, Config) -> LowerRun)
    requires NonNegativeTimes(lower)
    ensures ReferenceRuntime(tempDir, mlirOpt, lower) >= 0.0
  {
    match CompileMlir(mlirOpt, tempDir, NoPasses)
    case CompileFailed(_) =>
    case Compiled(ir) =>
      TestConfigsNonNegative();
      TotalNonNegative(ir, TestConfigs, lower);
  }

  /** When the baseline compiles and every shape's lowering returns the same
      successful run, the reference is five times the base shape's estimate
      (the mean of scales 1, 6 and 8). */
  lemma ReferenceUniform(tempDir: string, mlirOpt: seq<string> -> ToolRun, lower: (string, Config) -> LowerRun,
                         run: LowerRun)
    requires CompileMlir(mlirOpt, tempDir, NoPasses).Compiled?
    requires Succeeded(run)
    requires forall c :: c in TestConfigs ==> lower(CompileMlir(mlirOpt, tempDir, NoPasses).ir, c) == run
    ensures ReferenceRuntime(tempDir, mlirOpt, lower)
         == 5.0 * Estimate(CompileMlir(mlirOpt, tempDir, NoPasses).ir, BaseConfig, run).runtime
  {
    UniformSuccessTotal(CompileMlir(mlirOpt, tempDir, NoPasses).ir, lower, run);
  }

  /** The evaluator: its compiler's temporary directory and tool, the three
      test shapes, and the lazily computed reference runtime. */
  class Evaluator {
    const tempDir: string
    const mlirOpt: seq<string> -> ToolRun
    const lower: (string, Config) -> LowerRun
    const testConfigs: seq<Config> := TestConfigs
    var referencePerformance: Option<real>

    /** A cached reference, once there, is the one the baseline gives. */
    predicate CacheValid()
      reads this
    {
      referencePerformance.Some? ==> referencePerformance.value == ReferenceRuntime(tempDir, mlirOpt, lower)
    }

    constructor(tempDir: string, mlirOpt: seq<string> -> ToolRun, lower: (string, Config) -> LowerRun)
      ensures this.tempDir == tempDir && this.mlirOpt == mlirOpt && this.lower == lower
      ensures referencePerformance == None
      ensures CacheValid()
    {
      this.tempDir := tempDir;
      this.mlirOpt := mlirOpt;
      this.lower := lower;
      referencePerformance := None;
    }

    /** `get_reference_performance`: computed at most once; a cached value is
      returned unchanged, otherwise the baseline is compiled and benchmarked and
      the field set. */
    method GetReferencePerformance() returns (r: real)
      requires CacheValid()
      modifies this
      ensures CacheValid()
      ensures r == ReferenceRuntime(tempDir, mlirOpt, lower)
      ensures referencePerformance == Some(r)
      ensures old(referencePerformance).Some? ==> r == old(referencePerformance).value
    {
      if referencePerformance.None? {
        var baseline := CompileMlir(mlirOpt, tempDir, NoPasses);
        if baseline.CompileFailed? {
          referencePerformance := Some(5.0);
          return 5.0;
        }
        var total, _ := RunBenchmarks(baseline.ir, testConfigs, lower);
        referencePerformance := Some(total / |testConfigs| as real);
      }
      r := referencePerformance.value;
    }

    /** Two lookups in a row agree, and the second is served from the field. */
    method ReferenceTwice() returns (r1: real, r2: real)
      requires CacheValid()
      modifies this
      ensures r1 == r2 == ReferenceRuntime(tempDir, mlirOpt, lower)
      ensures referencePerformance == Some(r1)
    {
      r1 := GetReferencePerformance();
      r2 := GetReferencePerformance();
    }

    /** `compile_with_optimizations`: build the pipeline, compile with it. */
    method CompileWithOptimizations(p: ParamSet) returns (r: Result<string>)
      ensures r == Optimized(tempDir, mlirOpt, p)
    {
      var pipeline := BuildPipeline(p);
      if pipeline.Err? {
        return Err("Optimization error: " + pipeline.msg);
      }
      var compiled := CompileMlir(mlirOpt, tempDir, PassString(pipeline.value));
      if compiled.CompileFailed? {
        return Err("Optimization failed: " + compiled.diagnostic);
      }
      r := Ok(compiled.ir);
    }
  }

  /** The result for an exception: error 1000 and its text, cut to 200. */
  function ExceptionResult(message: string): ResultDict
  {
    map[ErrorKey := RFloat(1000.0), ExceptionKey := RStr(Truncate(message, 200))]
  }

  /** The result when the program defines no `optimize_attention`. */
  const MissingResult: ResultDict :=
    map[ErrorKey := RFloat(1000.0), CompilationErrorKey := RStr("No optimize_attention function")]

  /** The result when optimization fails: error 100 and the message, cut to 200. */
  function CompileErrorResult(message: string): ResultDict
  {
    map[ErrorKey := RFloat(100.0), CompilationErrorKey := RStr(Truncate(message, 200))]
  }

  /** Parameters echoed into the result: ints, floats and bools. */
  predicate Echoable(v: Value)
  {
    v.IntVal? || v.FloatVal? || v.BoolVal?
  }

  /** Ints and floats are echoed as they are, bools as 1.0 or 0.0. */
  function EchoValue(v: Value): ResultValue
    requires Echoable(v)
  {
    match v
    case IntVal(i) => RInt(i)
    case FloatVal(x, _) => RFloat(x)
    case BoolVal(b) => RFloat(if b then 1.0 else 0.0)
  }

  /** The echo entries for the parameters among `keys`. */
  function EchoOf(p: ParamSet, keys: set<string>): ResultDict
  {
    map k | k in keys && k in p && Echoable(p[k]) :: ParamKey(k) := EchoValue(p[k])
  }

  /** Echoing one more key adds its entry when it is echoable. */
  lemma EchoStep(p: ParamSet, done: set<string>, key: string)
    requires key in p
    ensures Echoable(p[key]) ==> EchoOf(p, done + {key}) == EchoOf(p, done)[ParamKey(key) := EchoValue(p[key])]
    ensures !Echoable(p[key]) ==> EchoOf(p, done + {key}) == EchoOf(p, done)
  {
    var after, before := EchoOf(p, done + {key}), EchoOf(p, done);
    if Echoable(p[key]) {
      var updated := before[ParamKey(key) := EchoValue(p[key])];
      assert after.Keys == updated.Keys;
    } else {
      assert after.Keys == before.Keys;
    }
  }

  /** At most the first three warnings. */
  function FirstThree(warnings: seq<string>): (r: seq<string>)
    ensures r <= warnings && |r| <= 3
    ensures |warnings| >= 3 ==> |r| == 3
    ensures |warnings| < 3 ==> r == warnings
  {
    if |warnings| <= 3 then warnings else warnings[..3]
  }

  /** The entries every scored result starts from. */
  function FixedEntries(ir: string, average: real, reference: real): ResultDict
  {
    var s := Speedup(reference, average);
    map[
      ErrorKey := RFloat(Error(s)),
      SpeedupKey := RFloat(s),
      RuntimeKey := RFloat(average),
      ReferenceRuntimeKey := RFloat(reference),
      TargetSpeedupKey := RFloat(TargetSpeedup),
      AchievedTargetKey := RBool(Achieved(s)),
      RealMlirCompilationKey := RBool(true),
      IrSizeKey := RInt(|ir|)]
  }

  /** Adds the first three warnings, joined with "; ", when there are any. */
  function WithWarnings(r: ResultDict, warnings: seq<string>): ResultDict
  {
    if |warnings| > 0 then r[BenchmarkWarningsKey := RStr(Join("; ", FirstThree(warnings)))] else r
  }

  /** The result of a successful run: the score, the times, the target, the
      IR size, the echoed parameters and, when there were any, the first
      three benchmark warnings joined with "; ". */
  function Scored(p: ParamSet, ir: string, total: real, warnings: seq<string>, reference: real): ResultDict
  {
    WithWarnings(FixedEntries(ir, Average(total), reference) + EchoOf(p, p.Keys), warnings)
  }

  /** `evaluate_program`, outcome by outcome. */
  function Evaluation(env: Environment): ResultDict
  {
    match VerifyTools(env.probe)
    case Some(e) => ExceptionResult(e)
    case None =>
      match env.program
      case ProgramRaised(m) => ExceptionResult(m)
      case MissingOptimize => MissingResult
      case Returned(p) =>
        match Optimized(env.tempDir, env.mlirOpt, p)
        case Err(m) => CompileErrorResult(m)
        case Ok(ir) =>
          Scored(p, ir, TotalRuntime(ir, TestConfigs, env.lower), Warnings(ir, TestConfigs, env.lower),
                 ReferenceRuntime(env.tempDir, env.mlirOpt, env.lower))
  }

  /** The loop that collects the echoed parameters. */
  method EchoParams(p: ParamSet) returns (r: ResultDict)
    ensures r == EchoOf(p, p.Keys)
  {
    r := map[];
    var remaining := p.Keys;
    while remaining != {}
      invariant remaining <= p.Keys
      invariant r == EchoOf(p, p.Keys - remaining)
      decreases |remaining|
    {
      var key :| key in remaining;
      var done := p.Keys - remaining;
      EchoStep(p, done, key);
      if Echoable(p[key]) {
        r := r[ParamKey(key) := EchoValue(p[key])];
      }
      assert p.Keys - (remaining - {key}) == done + {key};
      remaining := remaining - {key};
    }
  }

  /** The scoring and result assembly of `evaluate_program`. */
  method Score(p: ParamSet, ir: string, total: real, warnings: seq<string>, reference: real)
    returns (result: ResultDict)
    ensures result == Scored(p, ir, total, warnings, reference)
  {
    var average := Average(total);
    var speedup := Speedup(reference, average);
    var error;
    if speedup >= TargetSpeedup {
      error := Max(0.1, (TargetSpeedup - speedup) * 5.0);
    } else {
      error := (TargetSpeedup - speedup) * 50.0;
    }
    error := Max(0.01, error);
    assert error == Error(speedup);
    result := map[
      ErrorKey := RFloat(error),
      SpeedupKey := RFloat(speedup),
      RuntimeKey := RFloat(average),
      ReferenceRuntimeKey := RFloat(reference),
      TargetSpeedupKey := RFloat(TargetSpeedup),
      AchievedTargetKey := RBool(speedup >= TargetSpeedup),
      RealMlirCompilationKey := RBool(true),
      IrSizeKey := RInt(|ir|)];
    assert result == FixedEntries(ir, average, reference);
    var echoed := EchoParams(p);
    result := result + echoed;
    if |warnings| > 0 {
      result := result[BenchmarkWarningsKey := RStr(Join("; ", FirstThree(warnings)))];
    }
  }

  /** `evaluate_program`: a fresh evaluator, the candidate's parameters, the
      optimized compile, the benchmark loop, the reference, the score. */
  method EvaluateProgram(env: Environment) returns (result: ResultDict)
    ensures result == Evaluation(env)
  {
    var toolError := VerifyTools(env.probe);
    if toolError.Some? {
      return ExceptionResult(toolError.value);
    }
    var evaluator := new Evaluator(env.tempDir, env.mlirOpt, env.lower);
    var p;
    match env.program {
      case ProgramRaised(m) => return ExceptionResult(m);
      case MissingOptimize => return MissingResult;
      case Returned(params) => p := params;
    }
    var optimized := evaluator.CompileWithOptimizations(p);
    if optimized.Err? {
      return CompileErrorResult(optimized.msg);
    }
    var ir := optimized.value;
    var total, warnings := RunBenchmarks(ir, evaluator.testConfigs, env.lower);
    var reference := evaluator.GetReferencePerformance();
    result := Score(p, ir, total, warnings, reference);
  }

  lemma ParamNamesDistinct(a: string, b: string)
    ensures KeyName(ParamKey(a)) == KeyName(ParamKey(b)) ==> a == b
  {
    if KeyName(ParamKey(a)) == KeyName(ParamKey(b)) {
      assert a == KeyName(ParamKey(a))[6..];
      assert b == KeyName(ParamKey(b))[6..];
    }
  }

  lemma FixedNameNotParam(k: Key, name: string)
    requires !k.ParamKey?
    ensures KeyName(k) != KeyName(ParamKey(name))
  {
    assert KeyName(ParamKey(name))[0] == 'p';
    assert KeyName(k)[0] != 'p';
  }

  /** Different keys are spelled differently, so the dictionary keyed by `Key`
      is the Python dictionary keyed by `KeyName`: no echoed "param_<key>" can
      collide with a fixed entry or with another parameter. */
  lemma KeyNamesDistinct(a: Key, b: Key)
    ensures KeyName(a) == KeyName(b) ==> a == b
  {
    if a.ParamKey? && b.ParamKey? {
      ParamNamesDistinct(a.name, b.name);
    } else if a.ParamKey? {
      FixedNameNotParam(b, a.name);
    } else if b.ParamKey? {
      FixedNameNotParam(a, b.name);
    } else if KeyName(a) == KeyName(b) {
      assert |KeyName(a)| == |KeyName(b)| && KeyName(a)[0] == KeyName(b)[0];
    }
  }

  /** The echo adds parameter entries only. */
  lemma EchoKeysAreParams(p: ParamSet, keys: set<string>)
    ensures forall k :: k in EchoOf(p, keys) ==> k.ParamKey?
  {
  }

  /** The entries of `FixedEntries`. */
  lemma FixedEntriesValues(ir: string, average: real, reference: real)
    ensures var r := FixedEntries(ir, average, reference);
      var s := Speedup(reference, average);
      && ErrorKey in r && SpeedupKey in r && RuntimeKey in r && ReferenceRuntimeKey in r
      && TargetSpeedupKey in r && AchievedTargetKey in r && RealMlirCompilationKey in r && IrSizeKey in r
      && r[RuntimeKey] == RFloat(average)
      && r[ReferenceRuntimeKey] == RFloat(reference)
      && r[SpeedupKey] == RFloat(s)
      && r[ErrorKey] == RFloat(Error(s))
      && r[AchievedTargetKey] == RBool(Achieved(s))
      && r[TargetSpeedupKey] == RFloat(TargetSpeedup)
      && r[RealMlirCompilationKey] == RBool(true)
      && r[IrSizeKey] == RInt(|ir|)
      && ExceptionKey !in r && CompilationErrorKey !in r
  {
  }

  /** The fixed entries of a scored result, untouched by the echo and the
      warnings. */
  lemma ScoredFixed(p: ParamSet, ir: string, total: real, warnings: seq<string>, reference: real)
    ensures var r := Scored(p, ir, total, warnings, reference);
      var fixed := FixedEntries(ir, Average(total), reference);
      forall k: Key :: !k.ParamKey? && k != BenchmarkWarningsKey ==>
        (k in r <==> k in fixed) && (k in fixed ==> r[k] == fixed[k])
  {
    EchoKeysAreParams(p, p.Keys);
  }

  /** The warning entry of a scored result. */
  lemma ScoredWarnings(p: ParamSet, ir: string, total: real, warnings: seq<string>, reference: real)
    ensures var r := Scored(p, ir, total, warnings, reference);
      && (BenchmarkWarningsKey in r <==> |warnings| > 0)
      && (|warnings| > 0 ==> r[BenchmarkWarningsKey] == RStr(Join("; ", FirstThree(warnings))))
  {
    EchoKeysAreParams(p, p.Keys);
  }

  /** The parameter entries of a scored result. */
  lemma ScoredEcho(p: ParamSet, ir: string, total: real, warnings: seq<string>, reference: real)
    ensures var r := Scored(p, ir, total, warnings, reference);
      forall k :: k in p ==>
        && (ParamKey(k) in r <==> Echoable(p[k]))
        && (Echoable(p[k]) ==> r[ParamKey(k)] == EchoValue(p[k]))
  {
    var fixed := FixedEntries(ir, Average(total), reference);
    assert forall k :: ParamKey(k) !in fixed;
  }

  /** A run that reaches scoring: the tools answered, the program returned
      parameters and the optimized compile succeeded. */
  predicate Scores(env: Environment)
  {
    && VerifyTools(env.probe).None?
    && env.program.Returned?
    && Optimized(env.tempDir, env.mlirOpt, env.program.params).Ok?
  }

  /** The optimized IR of a scored run. */
  function ScoredIr(env: Environment): string
    requires Scores(env)
  {
    Optimized(env.tempDir, env.mlirOpt, env.program.params).value
  }

  /** Proof helper: `Evaluation(env)` of a scored run, unfolded. */
  lemma EvaluationScored(env: Environment)
    requires Scores(env)
    ensures Evaluation(env)
         == Scored(env.program.params, ScoredIr(env), TotalRuntime(ScoredIr(env), TestConfigs, env.lower),
                   Warnings(ScoredIr(env), TestConfigs, env.lower),
                   ReferenceRuntime(env.tempDir, env.mlirOpt, env.lower))
  {
  }

  /** Every result carries an error of at least 0.01, and the outcomes are
      ranked: 1000 when the tools or the program fail, 100 when optimization
      fails, and at most 66 once a run is scored with non-negative times. */
  lemma SeverityLevels(env: Environment)
    ensures ErrorKey in Evaluation(env) && Evaluation(env)[ErrorKey].RFloat?
    ensures Evaluation(env)[ErrorKey].x >= 0.01
    ensures VerifyTools(env.probe).Some? || !env.program.Returned? ==> Evaluation(env)[ErrorKey] == RFloat(1000.0)
    ensures VerifyTools(env.probe).None? && env.program.Returned? && !Scores(env) ==>
      Evaluation(env)[ErrorKey] == RFloat(100.0)
    ensures Scores(env) && NonNegativeTimes(env.lower) ==> Evaluation(env)[ErrorKey].x <= 66.0
  {
    if Scores(env) {
      var ir := ScoredIr(env);
      var total := TotalRuntime(ir, TestConfigs, env.lower);
      var reference := ReferenceRuntime(env.tempDir, env.mlirOpt, env.lower);
      EvaluationScored(env);
      ScoredFixed(env.program.params, ir, total, Warnings(ir, TestConfigs, env.lower), reference);
      FixedEntriesValues(ir, Average(total), reference);
      if NonNegativeTimes(env.lower) {
        ReferenceNonNegative(env.tempDir, env.mlirOpt, env.lower);
        ErrorBounded(reference, Average(total));
      }
    }
  }

  /** Diagnostics are cut to 200 characters; a scored result has none. */
  lemma DiagnosticsTruncated(env: Environment)
    ensures ExceptionKey in Evaluation(env) ==>
      Evaluation(env)[ExceptionKey].RStr? && |Evaluation(env)[ExceptionKey].s| <= 200
    ensures CompilationErrorKey in Evaluation(env) ==>
      Evaluation(env)[CompilationErrorKey].RStr? && |Evaluation(env)[CompilationErrorKey].s| <= 200
    ensures Scores(env) ==> ExceptionKey !in Evaluation(env) && CompilationErrorKey !in Evaluation(env)
  {
    if Scores(env) {
      var ir := ScoredIr(env);
      EvaluationScored(env);
      ScoredNoDiagnostics(env.program.params, ir, TotalRuntime(ir, TestConfigs, env.lower),
                          Warnings(ir, TestConfigs, env.lower), ReferenceRuntime(env.tempDir, env.mlirOpt, env.lower));
    }
  }

  /** The result of every failing run, in the order the source checks: the
      tool probe first, then the program, then the optimized compile. Each
      carries its diagnostic, cut to 200 characters, and a failed optimization
      never reports an empty one. */
  lemma FailureResults(env: Environment)
    ensures VerifyTools(env.probe).Some? ==>
      Evaluation(env) == map[ErrorKey := RFloat(1000.0),
                             ExceptionKey := RStr(Truncate(VerifyTools(env.probe).value, 200))]
    ensures VerifyTools(env.probe).None? && env.program.ProgramRaised? ==>
      Evaluation(env) == map[ErrorKey := RFloat(1000.0), ExceptionKey := RStr(Truncate(env.program.message, 200))]
    ensures VerifyTools(env.probe).None? && env.program.MissingOptimize? ==>
      Evaluation(env) == map[ErrorKey := RFloat(1000.0),
                             CompilationErrorKey := RStr("No optimize_attention function")]
    ensures VerifyTools(env.probe).None? && env.program.Returned?
            && Optimized(env.tempDir, env.mlirOpt, env.program.params).Err? ==>
      var m := Optimized(env.tempDir, env.mlirOpt, env.program.params).msg;
      && Evaluation(env) == map[ErrorKey := RFloat(100.0), CompilationErrorKey := RStr(Truncate(m, 200))]
      && |Truncate(m, 200)| > 0
  {
  }

  /** A scored result carries neither an exception nor a compilation error. */
  lemma ScoredNoDiagnostics(p: ParamSet, ir: string, total: real, warnings: seq<string>, reference: real)
    ensures ExceptionKey !in Scored(p, ir, total, warnings, reference)
    ensures CompilationErrorKey !in Scored(p, ir, total, warnings, reference)
  {
    ScoredFixed(p, ir, total, warnings, reference);
    FixedEntriesValues(ir, Average(total), reference);
  }

  /** A scored result reports the mean of the three estimates as its runtime
      and the reference as given. */
  lemma ScoredTimes(p: ParamSet, ir: string, total: real, warnings: seq<string>, reference: real)
    ensures var r := Scored(p, ir, total, warnings, reference);
      && RuntimeKey in r && ReferenceRuntimeKey in r
      && r[RuntimeKey].RFloat? && r[ReferenceRuntimeKey].RFloat?
      && 3.0 * r[RuntimeKey].x == total
      && r[ReferenceRuntimeKey].x == reference
  {
    var r := Scored(p, ir, total, warnings, reference);
    var fixed := FixedEntries(ir, Average(total), reference);
    ScoredFixed(p, ir, total, warnings, reference);
    FixedEntriesValues(ir, Average(total), reference);
    assert r[RuntimeKey] == fixed[RuntimeKey] == RFloat(Average(total));
    assert r[ReferenceRuntimeKey] == fixed[ReferenceRuntimeKey];
    AverageOfThree(total);
  }

  /** The speedup of a scored result is the reference over the runtime, or 0
      when the runtime is not positive. */
  lemma ScoredSpeedup(p: ParamSet, ir: string, total: real, warnings: seq<string>, reference: real)
    ensures var r := Scored(p, ir, total, warnings, reference);
      && SpeedupKey in r && RuntimeKey in r && ReferenceRuntimeKey in r
      && r[SpeedupKey].RFloat? && r[RuntimeKey].RFloat? && r[ReferenceRuntimeKey].RFloat?
      && (r[RuntimeKey].x > 0.0 ==> r[SpeedupKey].x == r[ReferenceRuntimeKey].x / r[RuntimeKey].x)
      && (r[RuntimeKey].x <= 0.0 ==> r[SpeedupKey].x == 0.0)
  {
    var r := Scored(p, ir, total, warnings, reference);
    var fixed := FixedEntries(ir, Average(total), reference);
    ScoredFixed(p, ir, total, warnings, reference);
    FixedEntriesValues(ir, Average(total), reference);
    var average := Average(total);
    var s := Speedup(reference, average);
    assert r[RuntimeKey] == fixed[RuntimeKey] == RFloat(average);
    assert r[ReferenceRuntimeKey] == fixed[ReferenceRuntimeKey] == RFloat(reference);
    assert r[SpeedupKey] == fixed[SpeedupKey] == RFloat(s);
  }

  /** The target counts as achieved exactly when the reported speedup reaches
      1.32, and then the error is 0.1; the IR size is the optimized text's
      length. */
  lemma ScoredTarget(p: ParamSet, ir: string, total: real, warnings: seq<string>, reference: real)
    ensures var r := Scored(p, ir, total, warnings, reference);
      && SpeedupKey in r && AchievedTargetKey in r && ErrorKey in r && IrSizeKey in r
      && RealMlirCompilationKey in r && r[SpeedupKey].RFloat?
      && r[AchievedTargetKey] == RBool(r[SpeedupKey].x >= 1.32)
      && (r[SpeedupKey].x >= 1.32 ==> r[ErrorKey] == RFloat(0.1))
      && r[IrSizeKey] == RInt(|ir|) && r[RealMlirCompilationKey] == RBool(true)
  {
    var r := Scored(p, ir, total, warnings, reference);
    var fixed := FixedEntries(ir, Average(total), reference);
    var s := Speedup(reference, Average(total));
    ScoredFixed(p, ir, total, warnings, reference);
    FixedEntriesValues(ir, Average(total), reference);
    assert r[SpeedupKey] == fixed[SpeedupKey] == RFloat(s);
    assert r[AchievedTargetKey] == fixed[AchievedTargetKey];
    assert r[ErrorKey] == fixed[ErrorKey];
    assert r[IrSizeKey] == fixed[IrSizeKey];
    assert r[RealMlirCompilationKey] == fixed[RealMlirCompilationKey];
    ErrorAtTarget(s);
  }

  /** Exactly the int, float and bool parameters are echoed, under
      "param_<key>": ints and floats as they are, bools as 1.0 or 0.0. */
  lemma EchoedParams(p: ParamSet, ir: string, total: real, warnings: seq<string>, reference: real)
    ensures var r := Scored(p, ir, total, warnings, reference);
      forall k :: k in p ==>
        && (ParamKey(k) in r <==> p[k].IntVal? || p[k].FloatVal? || p[k].BoolVal?)
        && (p[k].IntVal? ==> r[ParamKey(k)] == RInt(p[k].i))
        && (p[k].FloatVal? ==> r[ParamKey(k)] == RFloat(p[k].x))
        && (p[k].BoolVal? ==> r[ParamKey(k)] == RFloat(if p[k].b then 1.0 else 0.0))
  {
    ScoredEcho(p, ir, total, warnings, reference);
  }

  /** Warnings are reported exactly when some lowering of the optimized IR did
      not succeed, as at most the first three joined with "; ". */
  lemma WarningsReported(p: ParamSet, ir: string, lower: (string, Config) -> LowerRun, reference: real)
    ensures var all := Warnings(ir, TestConfigs, lower);
      var r := Scored(p, ir, TotalRuntime(ir, TestConfigs, lower), all, reference);
      && (BenchmarkWarningsKey in r <==> exists k :: 0 <= k < |TestConfigs| && !Succeeded(lower(ir, TestConfigs[k])))
      && (BenchmarkWarningsKey in r ==>
            exists shown :: shown <= all && |shown| == (if |all| < 3 then |all| else 3)
                          && r[BenchmarkWarningsKey] == RStr(Join("; ", shown)))
  {
    var all := Warnings(ir, TestConfigs, lower);
    WarningsIffFailures(ir, TestConfigs, lower);
    ScoredWarnings(p, ir, TotalRuntime(ir, TestConfigs, lower), all, reference);
    if |all| > 0 {
      var shown := FirstThree(all);
      assert Scored(p, ir, TotalRuntime(ir, TestConfigs, lower), all, reference)[BenchmarkWarningsKey]
          == RStr(Join("; ", shown));
    }
  }

  /** A dictionary the sampler can return never makes the builder raise: the
      optimized compile can only fail in mlir-opt, and its pipeline tiles. */
  lemma SampledParamsCompile(env: Environment)
    requires VerifyTools(env.probe).None? && env.program.Returned? && Sampled(env.program.params)
    ensures var p := env.program.params;
      && Plan(p).Ok? && multiset(Plan(p).value)[LinalgTile(TileM(p), TileN(p))] == 1
      && (Optimized(env.tempDir, env.mlirOpt, p).Err? ==>
            "Optimization failed: " <= Optimized(env.tempDir, env.mlirOpt, p).msg)
  {
    SampledPlansTile(env.program.params);
    OptimizedCommand(env.tempDir, env.mlirOpt, env.program.params);
  }
}
