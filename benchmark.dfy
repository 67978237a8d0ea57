/** `FixedMLIRCompiler.benchmark_mlir` and the loops that sum it over the test
    configurations: a runtime proxy computed from how long lowering took and
    how many lines the lowered IR has, scaled by the attention workload. */
module Benchmark {
  import opened Wrappers
  import opened Text
  import opened Driver

  /** An attention shape: batch, heads, sequence length, head dimension. */
  datatype Config = Config(batch: int, heads: int, seqLen: int, headDim: int)

  /** The reference shape the workload scale is relative to. */
  const BaseConfig: Config := Config(1, 8, 128, 64)

  /** The evaluator's three shapes: small, medium, large. */
  const TestConfigs: seq<Config> := [Config(1, 8, 128, 64), Config(2, 12, 256, 64), Config(1, 16, 512, 64)]

  /** One run of the lowering pipeline: what mlir-opt did and the wall-clock
      seconds it took. */
  datatype LowerRun = LowerRun(outcome: ToolRun, elapsed: real)

  /** A benchmark's estimate and its optional warning. */
  datatype Sample = Sample(runtime: real, warning: Option<string>)

  /** The IR's lines over the base complexity of 50. */
  function Complexity(text: string): real
  {
    LineCount(text) as real / 50.0
  }

  function Volume(c: Config): int
  {
    c.batch * c.heads * c.seqLen * c.headDim
  }

  /** The workload relative to the base shape; true division, as Python's `/`. */
  function WorkloadScale(c: Config): real
  {
    Volume(c) as real / Volume(BaseConfig) as real
  }

  predicate NonNegativeShape(c: Config)
  {
    c.batch >= 0 && c.heads >= 0 && c.seqLen >= 0 && c.headDim >= 0
  }

  /** The estimate for one configuration of lowered IR `ir` given the lowering
      run: on success the output's complexity plus twice the time, scaled by
      the workload; on a failed lowering the time, doubled, times the input's
      complexity, with the diagnostic cut to 200 characters; 10.0 on a timeout
      or any other exception. */
  function Estimate(ir: string, c: Config, run: LowerRun): (s: Sample)
    ensures s.warning.None? <==> run.outcome.Exited? && run.outcome.code == 0
    ensures s.warning.Some? ==> |s.warning.value| > 0
  {
    match run.outcome
    case Exited(code, stdout, stderr) =>
      if code != 0 then
        Sample(run.elapsed * 2.0 * Complexity(ir), Some("Lowering failed: " + Truncate(stderr, 200)))
      else
        Sample((Complexity(stdout) + run.elapsed * 2.0) * WorkloadScale(c), None)
    case TimedOut => Sample(10.0, Some("Compilation timeout"))
    case Raised(e) => Sample(10.0, Some("Benchmark error: " + e))
  }

  /** Proof helper: a product of non-negative integers is non-negative. */
  lemma ProductNonNegative(a: int, b: int, c: int, d: int)
    requires a >= 0 && b >= 0 && c >= 0 && d >= 0
    ensures a * b * c * d >= 0
  {
    assert a * b >= 0;
    assert a * b * c >= 0;
  }

  /** Proof helper: a product of non-negative reals is non-negative. */
  lemma RealProductNonNegative(x: real, y: real)
    requires x >= 0.0 && y >= 0.0
    ensures x * y >= 0.0
  {
  }

  /** The base volume is 1*8*128*64 = 65536 and scales itself to one. */
  lemma BaseVolume()
    ensures Volume(BaseConfig) == 65536
    ensures WorkloadScale(BaseConfig) == 1.0
  {
  }

  /** The test shapes carry 1, 6 and 8 times the base workload. */
  lemma TestConfigScales()
    ensures WorkloadScale(TestConfigs[0]) == 1.0
    ensures WorkloadScale(TestConfigs[1]) == 6.0
    ensures WorkloadScale(TestConfigs[2]) == 8.0
  {
    BaseVolume();
    assert Volume(TestConfigs[1]) == 393216;
    assert Volume(TestConfigs[2]) == 524288;
  }

  /** With a non-negative elapsed time and a shape of non-negative sizes, every
      estimate is non-negative. */
  lemma EstimateNonNegative(ir: string, c: Config, run: LowerRun)
    requires run.elapsed >= 0.0 && NonNegativeShape(c)
    ensures Estimate(ir, c, run).runtime >= 0.0
  {
    ProductNonNegative(c.batch, c.heads, c.seqLen, c.headDim);
    BaseVolume();
    match run.outcome
    case Exited(code, stdout, stderr) =>
      if code == 0 {
        RealProductNonNegative(Complexity(stdout) + run.elapsed * 2.0, WorkloadScale(c));
      } else {
        RealProductNonNegative(run.elapsed * 2.0, Complexity(ir));
      }
    case TimedOut =>
    case Raised(_) =>
  }

  /** A successful lowering never estimates below the workload over 50: even
      empty output counts as one line. */
  lemma SuccessLowerBound(ir: string, c: Config, run: LowerRun)
    requires run.outcome.Exited? && run.outcome.code == 0
    requires run.elapsed >= 0.0 && NonNegativeShape(c)
    ensures Estimate(ir, c, run).runtime >= WorkloadScale(c) / 50.0
  {
    ProductNonNegative(c.batch, c.heads, c.seqLen, c.headDim);
    BaseVolume();
    var extra := Complexity(run.outcome.stdout) + run.elapsed * 2.0 - 1.0 / 50.0;
    assert extra >= 0.0;
    RealProductNonNegative(extra, WorkloadScale(c));
  }

  /** On success the estimate is the base shape's estimate times the workload
      scale; failures and exceptions ignore the shape. */
  lemma EstimateScaling(ir: string, c: Config, run: LowerRun)
    ensures run.outcome.Exited? && run.outcome.code == 0 ==>
      Estimate(ir, c, run).runtime == Estimate(ir, BaseConfig, run).runtime * WorkloadScale(c)
    ensures !(run.outcome.Exited? && run.outcome.code == 0) ==>
      Estimate(ir, c, run) == Estimate(ir, BaseConfig, run)
  {
    BaseVolume();
  }

  /** A timeout or any other exception gives exactly the 10.0 sentinel with a
      fixed warning or the exception's text, and a failed lowering reports the
      first 200 characters of its diagnostic. */
  lemma EstimateFailures(ir: string, c: Config, run: LowerRun)
    ensures run.outcome.TimedOut? ==> Estimate(ir, c, run) == Sample(10.0, Some("Compilation timeout"))
    ensures run.outcome.Raised? ==>
      Estimate(ir, c, run) == Sample(10.0, Some("Benchmark error: " + run.outcome.message))
    ensures run.outcome.Exited? && run.outcome.code != 0 ==>
      && Estimate(ir, c, run).warning == Some("Lowering failed: " + Truncate(run.outcome.stderr, 200))
      && |Estimate(ir, c, run).warning.value| <= |"Lowering failed: "| + 200
  {
  }

  /** The sum of the estimates over `configs`, in order. */
  function TotalRuntime(ir: string, configs: seq<Config>, lower: (string, Config) -> LowerRun): real
  {
    if |configs| == 0 then 0.0
    else
      var last := configs[|configs| - 1];
      TotalRuntime(ir, configs[..|configs| - 1], lower) + Estimate(ir, last, lower(ir, last)).runtime
  }

  /** The warnings of the estimates over `configs`, in order. */
  function Warnings(ir: string, configs: seq<Config>, lower: (string, Config) -> LowerRun): seq<string>
  {
    if |configs| == 0 then []
    else
      var last := configs[|configs| - 1];
      var w := Estimate(ir, last, lower(ir, last)).warning;
      Warnings(ir, configs[..|configs| - 1], lower) + if w.Some? then [w.value] else []
  }

  /** A lowering run that succeeded. */
  predicate Succeeded(run: LowerRun)
  {
    run.outcome.Exited? && run.outcome.code == 0
  }

  /** The benchmark loop of `get_reference_performance` and of
      `evaluate_program`: run every configuration in order, add up the
      estimates and collect the warnings. */
  method RunBenchmarks(ir: string, configs: seq<Config>, lower: (string, Config) -> LowerRun)
    returns (total: real, warnings: seq<string>)
    ensures total == TotalRuntime(ir, configs, lower)
    ensures warnings == Warnings(ir, configs, lower)
  {
    total := 0.0;
    warnings := [];
    var k := 0;
    while k < |configs|
      invariant 0 <= k <= |configs|
      invariant total == TotalRuntime(ir, configs[..k], lower)
      invariant warnings == Warnings(ir, configs[..k], lower)
    {
      var sample := Estimate(ir, configs[k], lower(ir, configs[k]));
      if sample.warning.Some? {
        warnings := warnings + [sample.warning.value];
      }
      total := total + sample.runtime;
      assert configs[..k + 1][..k] == configs[..k];
      k := k + 1;
    }
    assert configs[..k] == configs;
  }

  /** The sum is non-negative when every run's time and every shape is. */
  lemma {:induction false} TotalNonNegative(ir: string, configs: seq<Config>, lower: (string, Config) -> LowerRun)
    requires forall k :: 0 <= k < |configs| ==> lower(ir, configs[k]).elapsed >= 0.0 && NonNegativeShape(configs[k])
    ensures TotalRuntime(ir, configs, lower) >= 0.0
  {
    if |configs| > 0 {
      var last := configs[|configs| - 1];
      TotalNonNegative(ir, configs[..|configs| - 1], lower);
      EstimateNonNegative(ir, last, lower(ir, last));
    }
  }

  /** There are no warnings exactly when every lowering succeeded, and never
      more warnings than configurations. */
  lemma {:induction false} WarningsIffFailures(ir: string, configs: seq<Config>, lower: (string, Config) -> LowerRun)
    ensures |Warnings(ir, configs, lower)| <= |configs|
    ensures Warnings(ir, configs, lower) == [] <==> forall k :: 0 <= k < |configs| ==> Succeeded(lower(ir, configs[k]))
  {
    if |configs| > 0 {
      var init := configs[..|configs| - 1];
      var last := configs[|configs| - 1];
      WarningsIffFailures(ir, init, lower);
      if forall k :: 0 <= k < |configs| ==> Succeeded(lower(ir, configs[k])) {
        assert forall k :: 0 <= k < |init| ==> Succeeded(lower(ir, init[k])) by {
          forall k | 0 <= k < |init|
            ensures Succeeded(lower(ir, init[k]))
          {
            assert init[k] == configs[k];
          }
        }
      } else {
        var j :| 0 <= j < |configs| && !Succeeded(lower(ir, configs[j]));
        if j < |configs| - 1 {
          assert init[j] == configs[j];
        }
      }
    }
  }

  /** When the same successful run (output text and time) comes back for every
      test shape, the sum is fifteen times the base estimate: 1 + 6 + 8. */
  lemma UniformSuccessTotal(ir: string, lower: (string, Config) -> LowerRun, run: LowerRun)
    requires Succeeded(run)
    requires forall c :: c in TestConfigs ==> lower(ir, c) == run
    ensures TotalRuntime(ir, TestConfigs, lower) == 15.0 * Estimate(ir, BaseConfig, run).runtime
  {
    TestConfigScales();
    var base := Estimate(ir, BaseConfig, run).runtime;
    EstimateScaling(ir, TestConfigs[0], run);
    EstimateScaling(ir, TestConfigs[1], run);
    EstimateScaling(ir, TestConfigs[2], run);
    assert TestConfigs[..2][..1] == [TestConfigs[0]];
    assert TestConfigs[..1][..0] == [];
    assert TotalRuntime(ir, TestConfigs[..1], lower) == base;
    assert TotalRuntime(ir, TestConfigs[..2], lower) == base + base * 6.0;
  }
}
