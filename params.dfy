/** The parameter dictionary that `optimize_attention` returns and the evaluator
    reads with `dict.get`, with the few pieces of Python value semantics the
    evaluator depends on (comparison with 1, truthiness, `str()`). */
module Params {
  import opened Wrappers
  import opened Text

  /** A Python value stored in the parameter dictionary. A float carries the
      text `str()` gives for it, which the model takes as given. */
  datatype Value =
    | IntVal(i: int)
    | FloatVal(x: real, repr: string)
    | BoolVal(b: bool)
    | StrVal(s: string)
    | NoneVal

  type ParamSet = map<string, Value>

  /** `params.get(key, default)`. */
  function Get(p: ParamSet, key: string, default: Value): Value
  {
    if key in p then p[key] else default
  }

  /** The Python type name used in `TypeError` messages. */
  function TypeName(v: Value): string
  {
    match v
    case IntVal(_) => "int"
    case FloatVal(_, _) => "float"
    case BoolVal(_) => "bool"
    case StrVal(_) => "str"
    case NoneVal => "NoneType"
  }

  /** The number a value stands for in arithmetic comparisons (bool is an int
      subclass in Python), or None when it is not a number. */
  function Numeric(v: Value): Option<real>
  {
    match v
    case IntVal(i) => Some(i as real)
    case FloatVal(x, _) => Some(x)
    case BoolVal(b) => Some(if b then 1.0 else 0.0)
    case _ => None
  }

  /** Python's `v > 1`: a number is compared, anything else raises TypeError. */
  function GreaterThanOne(v: Value): (r: Result<bool>)
    ensures r.Ok? <==> Numeric(v).Some?
    ensures r.Ok? ==> (r.value <==> Numeric(v).value > 1.0)
    ensures r.Err? ==> r.msg == "'>' not supported between instances of '" + TypeName(v) + "' and 'int'"
  {
    match v
    case IntVal(i) => Ok(i > 1)
    case FloatVal(x, _) => Ok(x > 1.0)
    case BoolVal(_) => Ok(false)
    case _ => Err("'>' not supported between instances of '" + TypeName(v) + "' and 'int'")
  }

  /** Python truthiness, as used by `if params.get(key, False):`. */
  function Truthy(v: Value): bool
  {
    match v
    case IntVal(i) => i != 0
    case FloatVal(x, _) => x != 0.0
    case BoolVal(b) => b
    case StrVal(s) => |s| > 0
    case NoneVal => false
  }

  /** `str(v)`, as an f-string renders it. */
  function PyStr(v: Value): string
  {
    match v
    case IntVal(i) => IntToString(i)
    case FloatVal(_, repr) => repr
    case BoolVal(b) => if b then "True" else "False"
    case StrVal(s) => s
    case NoneVal => "None"
  }

  /** The keys of the dictionary `optimize_attention` returns. */
  const SampledKeys: set<string> := {
    "tile_size_m", "tile_size_n", "vectorization", "unroll_factor",
    "loop_interchange", "fusion_strategy", "use_shared_memory",
    "optimize_for_latency", "enable_blocking", "enable_recomputation",
    "optimization_strategy", "target_speedup"
  }

  /** Every dictionary `optimize_attention` can return: each key present, each
      value drawn from the list its `random.choice` picks from. */
  predicate Sampled(p: ParamSet)
  {
    && p.Keys == SampledKeys
    && p["tile_size_m"] in {IntVal(32), IntVal(64)}
    && p["tile_size_n"] in {IntVal(64), IntVal(128)}
    && p["vectorization"] in {StrVal("none"), StrVal("affine"), StrVal("linalg")}
    && p["unroll_factor"] in {IntVal(1), IntVal(2), IntVal(4), IntVal(8)}
    && p["fusion_strategy"] in {StrVal("none"), StrVal("producer"), StrVal("consumer"), StrVal("both")}
    && p["loop_interchange"].BoolVal?
    && p["use_shared_memory"].BoolVal?
    && p["optimize_for_latency"].BoolVal?
    && p["enable_blocking"].BoolVal?
    && p["enable_recomputation"].BoolVal?
    && p["optimization_strategy"] == StrVal("alphaevolve_inspired")
    && p["target_speedup"] == FloatVal(1.32, "1.32")
  }

  /** On every sampled dictionary the comparisons the pass builder makes are
      defined: both tile sizes exceed one, the unroll factor is a number, and
      the toggles are booleans whose truthiness is their value. */
  lemma SampledComparisons(p: ParamSet)
    requires Sampled(p)
    ensures GreaterThanOne(p["tile_size_m"]) == Ok(true) && GreaterThanOne(p["tile_size_n"]) == Ok(true)
    ensures GreaterThanOne(p["unroll_factor"]) == Ok(p["unroll_factor"] != IntVal(1))
    ensures Truthy(p["loop_interchange"]) == p["loop_interchange"].b
    ensures Truthy(p["use_shared_memory"]) == p["use_shared_memory"].b
  {
  }

  /** The domains are not empty: the dictionary built from the first option of
      every choice is one the sampler can return. */
  lemma SampledExample()
    ensures Sampled(map[
      "tile_size_m" := IntVal(32), "tile_size_n" := IntVal(64), "vectorization" := StrVal("none"),
      "unroll_factor" := IntVal(1), "loop_interchange" := BoolVal(true),
      "fusion_strategy" := StrVal("none"), "use_shared_memory" := BoolVal(true),
      "optimize_for_latency" := BoolVal(true), "enable_blocking" := BoolVal(true),
      "enable_recomputation" := BoolVal(true), "optimization_strategy" := StrVal("alphaevolve_inspired"),
      "target_speedup" := FloatVal(1.32, "1.32")])
  {
  }
}
