# MLIR attention-optimization evaluator, modelled in Dafny

The repository's attention example has a live parameter sampler,
`optimize_attention`. It also has an evaluator, kept as commented-out text in
the same file, which scores the sampler's parameters. The evaluator works in
these steps:

1. It checks that `mlir-opt` answers.
2. It runs the candidate program and takes the parameter dictionary it returns.
3. It turns those parameters into an `mlir-opt` pass pipeline
   (`apply_transform_passes`) and compiles a baseline attention kernel with it
   (`compile_with_optimizations`).
4. It estimates a runtime for three attention shapes (`benchmark_mlir`). The
   estimate is built from how long lowering took and how many lines the
   lowered IR has.
5. It compares the mean estimate with a lazily cached reference for the
   unoptimized baseline (`get_reference_performance`).
6. It returns a result dictionary: an error to minimise, the speedup, whether
   the 1.32x target was reached, the echoed parameters and any benchmark
   warnings.

The model has one module per concern:

- `Wrappers` holds `Option` and `Result`.
- `Text` holds the Python string operations the evaluator uses: `join`,
  `split`, slicing, and `str` of an integer.
- `Params` holds the parameter dictionary and Python's `dict.get`, `v > 1`,
  truthiness and `str()` on its values. It also holds the sampler's value
  domains (`Sampled`).
- `Driver` covers the tool probe, the `compile_mlir` command line, and how
  the tool's outcome becomes IR or a diagnostic.
- `Pipeline` is the pass-list builder. `Plan` is a structured
  specification. `BuildPipeline` is the step-by-step builder proved against
  it.
- `Benchmark` holds the runtime estimate and the benchmark loop
  (`RunBenchmarks`).
- `Fitness` holds speedup, error and target.
- `Evaluator` holds the evaluator class with its cached reference, the
  result dictionary, and `evaluate_program` as a method (`EvaluateProgram`)
  proved against a function (`Evaluation`).

External processes are inputs:

- `mlirOpt` maps a command line run on the baseline input file to its
  outcome.
- `lower` maps an IR text and a shape to the lowering outcome and its elapsed
  seconds.
- The probe result and the candidate program's outcome are fields of
  `Environment`.

Result keys are a datatype. `KeyName` spells each key as Python does, and
`KeyNamesDistinct` shows that the spelling is injective, so the map keyed by
`Key` is the Python dictionary.

## Model

All source cells refer to `examples/attention_optimization/initial_program.py`.

| member | source | states |
|---|---|---|
| Text.LineCount | examples/attention_optimization/initial_program.py:256 | `len(s.split('\n'))` is at least 1 (even for empty text) and is one more than the number of newlines |
| Text.SplitCount | examples/attention_optimization/initial_program.py:262 | splitting on a character gives exactly one more piece than there are occurrences of it |
| Text.JoinSplit | examples/attention_optimization/initial_program.py:262 | joining the split pieces with the separator gives back the text, so the line split loses nothing |
| Text.SplitPiecesFree | examples/attention_optimization/initial_program.py:262 | no piece of a split contains the separator |
| Text.Truncate | examples/attention_optimization/initial_program.py:259 | `s[:n]` is a prefix of at most n characters; it is the whole text when that is short enough and exactly n characters otherwise |
| Text.JoinAppend | examples/attention_optimization/initial_program.py:216 | joining two non-empty lists puts a single separator between their joins |
| Text.ParseNatToString | examples/attention_optimization/initial_program.py:183 | the decimal text `str()` gives a tile size or unroll factor reads back as the same number |
| Params.GreaterThanOne | examples/attention_optimization/initial_program.py:181 | Python's `v > 1` succeeds exactly on numbers (bool counts as 0 or 1) and is true exactly when the number exceeds 1; anything else raises TypeError with the text "'>' not supported between instances of '<type>' and 'int'" |
| Params.Sampled | examples/attention_optimization/initial_program.py:25-81 | the dictionaries `optimize_attention` can return: exactly its twelve keys, each value drawn from the list its `random.choice` picks from, and the two fixed metadata entries |
| Params.SampledComparisons | examples/attention_optimization/initial_program.py:29-47 | on every sampled dictionary both tile sizes compare above one, the unroll factor compares above one exactly when it is not 1, and the toggles are booleans whose truthiness is their value |
| Params.SampledExample | examples/attention_optimization/initial_program.py:59-81 | the domains admit a dictionary: the one built from the first option of every choice is one the sampler can return |
| Driver.VerifyTools | examples/attention_optimization/initial_program.py:117-131 | the probe passes exactly when `mlir-opt --version` exits 0; a non-zero exit yields the doubly wrapped "MLIR tools verification failed: mlir-opt not working: <stderr>"; a missing tool yields "MLIR tools not found in PATH. Please add MLIR bin directory to PATH."; any other exception (a timeout included) yields "MLIR tools verification failed: <message>"; every failure message is non-empty |
| Driver.Command | examples/attention_optimization/initial_program.py:142-155 | the command is the tool and the input file followed by the three default flags exactly when no passes are given; a non-empty list becomes the single argument `--pass-pipeline=builtin.module(<names joined with ",">)`; a non-empty string is passed as `--pass-pipeline=<string>` |
| Driver.ListAndStringAgree | examples/attention_optimization/initial_program.py:144-149 | a non-empty pass list and the `builtin.module(...)` string rendered from it produce the same command line |
| Driver.CompileOutcome | examples/attention_optimization/initial_program.py:158-168 | compilation yields output exactly when the tool exits 0, and yields its stdout then; a non-zero exit gives the raw stderr; a timeout gives "MLIR compilation timed out"; any other exception gives "MLIR compilation error: <message>" |
| Driver.CompileMlir | examples/attention_optimization/initial_program.py:133-168 | `compile_mlir` is the outcome of one tool run on `input.mlir` in the temporary directory: with the default flags `--canonicalize --cse --symbol-dce` when no passes are given, with `--pass-pipeline=builtin.module(<joined list>)` for a list, and with `--pass-pipeline=<string>` for a string |
| Pipeline.Names | examples/attention_optimization/initial_program.py:216 | the rendered names correspond one to one, and in order, with the plan's passes |
| Pipeline.Tiling | examples/attention_optimization/initial_program.py:179-183 | the tiling comparison raises exactly when the first size is not a number, or when it exceeds 1 and the second is not a number (short-circuit `and`); otherwise the tile pass is produced exactly when both sizes exceed 1 |
| Pipeline.Vectorization | examples/attention_optimization/initial_program.py:186-191 | "affine" gives one `affine-vectorize`, "linalg" one `convert-linalg-to-vector`, and any other value nothing |
| Pipeline.Unrolling | examples/attention_optimization/initial_program.py:194-196 | the comparison raises exactly on non-numbers; the unroll pass, carrying the factor, is produced exactly when the factor exceeds 1 (default 1) |
| Pipeline.Fusion | examples/attention_optimization/initial_program.py:199-201 | `linalg-fusion` is produced exactly when the strategy is not the string "none" (default "none") |
| Pipeline.Interchange | examples/attention_optimization/initial_program.py:204-206 | a truthy `loop_interchange` adds exactly one `canonicalize`, and nothing otherwise |
| Pipeline.Promotion | examples/attention_optimization/initial_program.py:209-210 | a truthy `use_shared_memory` adds exactly one `linalg-promote-subviews`, and nothing otherwise |
| Pipeline.Plan | examples/attention_optimization/initial_program.py:173-213 | the pass list `apply_transform_passes` builds, or the TypeError a comparison raises; a successful plan has between 5 and 11 passes (the five cleanup passes and at most one per knob stage) |
| Pipeline.PlanNames | examples/attention_optimization/initial_program.py:173-213 | the names of a successful plan are the stages' names concatenated in source order |
| Pipeline.PlanFailsOnlyOnTypeError | examples/attention_optimization/initial_program.py:179-196 | building fails exactly when one of the comparisons it makes raises; a non-numeric first tile size fails with that comparison's TypeError |
| Pipeline.PlanFrame | examples/attention_optimization/initial_program.py:176 | every successful plan starts with `canonicalize, cse` and ends with `canonicalize, cse, symbol-dce` |
| Pipeline.TilingIff | examples/attention_optimization/initial_program.py:179-183 | the tiling pass with both sizes occurs exactly once when both sizes are numbers above 1, and otherwise not at all; no other tiling pass ever occurs |
| Pipeline.TilingOmitted | examples/attention_optimization/initial_program.py:179-181 | a missing tile size (default 0), or a size of 0 or 1, leaves every tiling pass out |
| Pipeline.VectorizationTable | examples/attention_optimization/initial_program.py:186-191 | across the whole plan, each vectorization pass occurs once for its own string value and never otherwise |
| Pipeline.UnrollingIff | examples/attention_optimization/initial_program.py:194-196 | the unroll pass with the factor occurs exactly once when the factor exceeds 1, and otherwise not at all; no other unroll pass occurs |
| Pipeline.TogglesIff | examples/attention_optimization/initial_program.py:199-213 | in the whole plan: fusion occurs once iff the strategy is not "none"; `canonicalize` occurs 3 times with interchange and 2 times without; promotion occurs once iff shared memory is requested; `cse` occurs twice and `symbol-dce` once |
| Pipeline.PlanOrder | examples/attention_optimization/initial_program.py:178-210 | between prefix and suffix the passes strictly follow the stage order tile, vectorize, unroll, fusion, interchange, promote, so no stage contributes twice |
| Pipeline.PlanText | examples/attention_optimization/initial_program.py:216 | the pipeline string is `builtin.module(canonicalize,cse,` then each knob pass followed by a comma, then `canonicalize,cse,symbol-dce)` |
| Pipeline.SampledPlansTile | examples/attention_optimization/initial_program.py:29-30 | every dictionary the sampler can return builds a plan without error, and that plan holds its tiling pass exactly once |
| Pipeline.AppendTiling | examples/attention_optimization/initial_program.py:179-183 | the tiling block appends the tiling stage's names, or raises the comparison's TypeError |
| Pipeline.AppendVectorization | examples/attention_optimization/initial_program.py:186-191 | the vectorization block appends the vectorization stage's names |
| Pipeline.AppendUnrolling | examples/attention_optimization/initial_program.py:194-196 | the unrolling block appends the unrolling stage's names, or raises the comparison's TypeError |
| Pipeline.AppendToggles | examples/attention_optimization/initial_program.py:199-210 | the fusion, interchange and promotion blocks append their stages' names in that order |
| Pipeline.BuildPipeline | examples/attention_optimization/initial_program.py:170-216 | the step-by-step builder returns `builtin.module(...)` of the plan's names, or the plan's error |
| Benchmark.Estimate | examples/attention_optimization/initial_program.py:220-281 | the estimate carries no warning exactly when lowering exited 0, and every warning is non-empty |
| Benchmark.BaseVolume | examples/attention_optimization/initial_program.py:273 | the base shape's volume is 65536 and its workload scale is 1 |
| Benchmark.TestConfigScales | examples/attention_optimization/initial_program.py:294-298 | the three test shapes carry 1, 6 and 8 times the base workload |
| Benchmark.EstimateNonNegative | examples/attention_optimization/initial_program.py:254-281 | with a non-negative elapsed time and non-negative dimensions, every estimate is non-negative |
| Benchmark.SuccessLowerBound | examples/attention_optimization/initial_program.py:262-274 | a successful lowering never estimates below the workload scale over 50, because even empty output counts as one line |
| Benchmark.EstimateScaling | examples/attention_optimization/initial_program.py:270-274 | on success the estimate is the base shape's estimate times the workload scale; failures and exceptions ignore the shape |
| Benchmark.EstimateFailures | examples/attention_optimization/initial_program.py:254-281 | a timeout gives 10.0 with "Compilation timeout"; any other exception gives 10.0 with "Benchmark error: <message>"; a failed lowering warns "Lowering failed: " followed by the first 200 characters of its stderr |
| Benchmark.RunBenchmarks | examples/attention_optimization/initial_program.py:430-437 | the loop's total and warnings are the sum of the estimates and their warnings, in configuration order |
| Benchmark.TotalNonNegative | examples/attention_optimization/initial_program.py:386-391 | the sum is non-negative when every elapsed time and every shape is |
| Benchmark.WarningsIffFailures | examples/attention_optimization/initial_program.py:433-436 | there are never more warnings than configurations, and none exactly when every lowering succeeded |
| Benchmark.UniformSuccessTotal | examples/attention_optimization/initial_program.py:270-274 | when every shape's lowering returns the same successful run, the total is 15 times the base estimate |
| Fitness.Speedup | examples/attention_optimization/initial_program.py:443 | with a positive average, speedup times average is the reference; otherwise the speedup is 0 |
| Fitness.Error | examples/attention_optimization/initial_program.py:455 | the reported error is never below 0.01 |
| Fitness.ErrorAtTarget | examples/attention_optimization/initial_program.py:448-455 | at or above the target the error is exactly 0.1; below it, it is `max(0.01, (1.32 - s) * 50)` |
| Fitness.ErrorDecreasingBelowTarget | examples/attention_optimization/initial_program.py:451-455 | below the target the error never rises as the speedup grows, and strictly falls until the floor |
| Fitness.ErrorDropsJustBelowTarget | examples/attention_optimization/initial_program.py:448-455 | a speedup of 1.319 scores 0.05, strictly better than the 0.1 that every speedup reaching the target scores |
| Fitness.ErrorBounded | examples/attention_optimization/initial_program.py:443-455 | with a non-negative reference the speedup is non-negative and the error is at most 66 |
| Fitness.ScoringExamples | examples/attention_optimization/initial_program.py:443-455 | equal times score 16 and miss the target; 1.32 over 1 scores 0.1 and reaches it; twice as slow scores 41 |
| Evaluator.OptimizedCommand | examples/attention_optimization/initial_program.py:355-370 | a builder error becomes "Optimization error: ..."; otherwise mlir-opt runs once with `--pass-pipeline=` and the built string, exactly as if the pass list itself were passed; the result is its stdout iff it exits 0, and otherwise "Optimization failed: " followed by the compile diagnostic |
| Evaluator.AverageOfThree | examples/attention_optimization/initial_program.py:439 | three times the mean over the test shapes is the total |
| Evaluator.ReferenceFallback | examples/attention_optimization/initial_program.py:374-393 | a baseline that does not exit 0 under the default flags gives exactly 5.0; one that does gives a reference equal to one third of its three estimates' total |
| Evaluator.ReferenceNonNegative | examples/attention_optimization/initial_program.py:374-393 | with non-negative lowering times the reference is non-negative |
| Evaluator.ReferenceUniform | examples/attention_optimization/initial_program.py:386-393 | when every shape's lowering of the baseline returns the same successful run, the reference is 5 times the base shape's estimate |
| Evaluator.Evaluator.constructor | examples/attention_optimization/initial_program.py:286-298 | a new evaluator has no cached reference |
| Evaluator.Evaluator.GetReferencePerformance | examples/attention_optimization/initial_program.py:372-396 | returns the baseline's reference and caches it; a value already cached is returned unchanged |
| Evaluator.Evaluator.ReferenceTwice | examples/attention_optimization/initial_program.py:374 | two lookups in a row return the same value, which stays cached |
| Evaluator.Evaluator.CompileWithOptimizations | examples/attention_optimization/initial_program.py:355-370 | building and compiling agrees with the optimized-compile specification, error texts included |
| Evaluator.EchoStep | examples/attention_optimization/initial_program.py:470-472 | visiting one more key adds its `param_` entry exactly when its value is an int, a float or a bool |
| Evaluator.EchoParams | examples/attention_optimization/initial_program.py:470-472 | the loop over the parameters yields exactly the echo entries of all echoable parameters |
| Evaluator.FirstThree | examples/attention_optimization/initial_program.py:476 | at most three warnings are kept: all of them when there are fewer, otherwise exactly the first three |
| Evaluator.Score | examples/attention_optimization/initial_program.py:439-476 | the scoring and result assembly produce the scored result dictionary |
| Evaluator.EvaluateProgram | examples/attention_optimization/initial_program.py:398-488 | the whole evaluation, outcome by outcome, agrees with its specification |
| Evaluator.KeyNamesDistinct | examples/attention_optimization/initial_program.py:458-472 | different result keys have different Python spellings, so no `param_<key>` collides with a fixed entry or another parameter |
| Evaluator.ScoredFixed | examples/attention_optimization/initial_program.py:458-472 | the echoed parameters never overwrite a fixed result entry |
| Evaluator.ScoredWarnings | examples/attention_optimization/initial_program.py:475-476 | `benchmark_warnings` is present exactly when there were warnings, and then joins the first three with "; " |
| Evaluator.ScoredEcho | examples/attention_optimization/initial_program.py:470-472 | a `param_<key>` entry is present exactly for the echoable parameters, holding the echoed value |
| Evaluator.SeverityLevels | examples/attention_optimization/initial_program.py:411-488 | every result has an error of at least 0.01; it is 1000 when the tools or the program fail and 100 when optimization fails; a scored run with non-negative times has error at most 66 |
| Evaluator.FailureResults | examples/attention_optimization/initial_program.py:403-488 | the exact result of each failing run, in the source's order: tools down or the program raising gives error 1000 with the message cut to 200 characters under `exception`; a missing `optimize_attention` gives error 1000 with its fixed `compilation_error`; a failed optimization gives error 100 with the non-empty message cut to 200 characters |
| Evaluator.DiagnosticsTruncated | examples/attention_optimization/initial_program.py:427-488 | the `exception` and `compilation_error` texts are at most 200 characters, and a scored result has neither |
| Evaluator.ScoredNoDiagnostics | examples/attention_optimization/initial_program.py:458-467 | a scored result carries no `exception` or `compilation_error` |
| Evaluator.ScoredTimes | examples/attention_optimization/initial_program.py:439-462 | the reported runtime is one third of the total over the three shapes, and the reported reference is the given one |
| Evaluator.ScoredSpeedup | examples/attention_optimization/initial_program.py:443 | the reported speedup is the reported reference over the reported runtime when that runtime is positive, and 0 otherwise |
| Evaluator.ScoredTarget | examples/attention_optimization/initial_program.py:446-466 | `achieved_target` holds exactly when the reported speedup reaches 1.32, and then the error is 0.1; `ir_size` is the optimized IR's length; `real_mlir_compilation` is true |
| Evaluator.EchoedParams | examples/attention_optimization/initial_program.py:470-472 | exactly the int, float and bool parameters are echoed: ints and floats as they are, bools as 1.0 or 0.0 |
| Evaluator.WarningsReported | examples/attention_optimization/initial_program.py:433-476 | `benchmark_warnings` is present exactly when some lowering of the optimized IR failed; it then joins a prefix of the warnings of length min(3, count) |
| Evaluator.SampledParamsCompile | examples/attention_optimization/initial_program.py:12-83 | for every dictionary the sampler can return, the builder does not raise, the plan tiles once, and a failed optimized compile reports "Optimization failed: ..." |

## Left out

- Process execution, temporary directories and file writes are not modelled (`subprocess.run`, `tempfile.mkdtemp`, the writes of `input.mlir` and `benchmark_*.mlir`). Each tool run is an input: `mlirOpt` for runs on the baseline input, `lower` for lowering runs.
- The 10/60/30-second timeouts are not modelled; a timeout is one of the tool outcomes.
- The tool oracles are functions, so the model assumes the same command, or the same IR and shape, always gives the same outcome.
- Wall-clock time is not modelled; the elapsed seconds of each lowering run are an input. `NonNegativeTimes` states the assumption where a property needs it.
- `exec` of the candidate program and reading the program file are not modelled. The candidate's outcome is an input: an exception, no `optimize_attention`, or a parameter dictionary. A non-dictionary return value, and non-string dictionary keys, are not modelled.
- The randomness of `optimize_attention` is not modelled. Only the set of dictionaries it can return is captured (`Params.Sampled`).
- `print` and `json.dumps` output are not modelled, including the baseline benchmark warnings that are only printed.
- The baseline MLIR text of `create_baseline_mlir` is not modelled. It only reaches the tool, so it is folded into the `mlirOpt` oracle.
- The text of the lowering pipeline in `benchmark_mlir` is not modelled. It only reaches the tool, so it is folded into the `lower` oracle.
- The unused `mlir_translate` path is not modelled.
- The `evaluate` entry point and the `__main__` blocks are not modelled: they are file I/O and printing around `evaluate_program`.
- Exceptions that cannot arise from the modelled inputs are not modelled: a parameter dictionary that is not a dict, and errors inside printing.
- Floats are exact reals rather than IEEE doubles. The target 1.32 and the boundary `speedup == 1.32` are exact here, but not in Python.
- Parameter values other than int, float, bool, str and None (lists, dicts, tuples and other objects) are not modelled. In Python they would raise a differently worded TypeError in `> 1`, be truthy when non-empty, and not be echoed.
- Params.PyStr: the `str()` of a float is taken as given with the value (`FloatVal.repr`), not computed from it.
- Evaluator.ScoredSpeedup: states the speedup through the division the source performs. The multiplicative form, speedup times runtime equals reference, is proved about `Fitness.Speedup`.

The error formula is kept as written even though it is not monotone across the target. Every speedup at or above 1.32 scores exactly 0.1, because `(1.32 - s) * 5` is never positive there. A speedup just below the target scores better than that (`Fitness.ErrorDropsJustBelowTarget`).
