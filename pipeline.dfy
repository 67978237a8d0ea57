/** `FixedMLIRCompiler.apply_transform_passes`: from the parameter dictionary to
    the ordered list of mlir-opt passes and the `builtin.module(...)` pipeline
    string handed to the tool. */
module Pipeline {
  import opened Wrappers
  import opened Text
  import opened Params

  /** One pass of the pipeline; the tiling and unrolling passes carry the
      parameter values they are rendered with. */
  datatype Pass =
    | Canonicalize
    | Cse
    | SymbolDce
    | LinalgTile(m: Value, n: Value)
    | AffineVectorize
    | ConvertLinalgToVector
    | AffineLoopUnroll(factor: Value)
    | LinalgFusion
    | LinalgPromoteSubviews

  /** The pass as mlir-opt's pipeline syntax spells it. */
  function Name(p: Pass): string
  {
    match p
    case Canonicalize => "canonicalize"
    case Cse => "cse"
    case SymbolDce => "symbol-dce"
    case LinalgTile(m, n) => "linalg-tile{linalg-tile-sizes=" + PyStr(m) + "," + PyStr(n) + "}"
    case AffineVectorize => "affine-vectorize"
    case ConvertLinalgToVector => "convert-linalg-to-vector"
    case AffineLoopUnroll(f) => "affine-loop-unroll{unroll-factor=" + PyStr(f) + "}"
    case LinalgFusion => "linalg-fusion"
    case LinalgPromoteSubviews => "linalg-promote-subviews"
  }

  /** The names of a plan's passes, in order. */
  function Names(plan: seq<Pass>): (names: seq<string>)
    ensures |names| == |plan|
    ensures forall i :: 0 <= i < |plan| ==> names[i] == Name(plan[i])
  {
    if |plan| == 0 then [] else [Name(plan[0])] + Names(plan[1..])
  }

  /** The cleanup passes every pipeline starts and ends with. */
  const Prologue: seq<Pass> := [Canonicalize, Cse]
  const Epilogue: seq<Pass> := [Canonicalize, Cse, SymbolDce]

  /** The parameters the numeric knobs read, with the defaults `dict.get` supplies. */
  function TileM(p: ParamSet): Value { Get(p, "tile_size_m", IntVal(0)) }
  function TileN(p: ParamSet): Value { Get(p, "tile_size_n", IntVal(0)) }
  function UnrollFactor(p: ParamSet): Value { Get(p, "unroll_factor", IntVal(1)) }

  /** Both tile sizes are numbers greater than one. */
  predicate TileRequested(p: ParamSet)
  {
    && Numeric(TileM(p)).Some? && Numeric(TileM(p)).value > 1.0
    && Numeric(TileN(p)).Some? && Numeric(TileN(p)).value > 1.0
  }

  /** The tiling stage: `tile_size_m > 1 and tile_size_n > 1`; the second
      comparison is only made when the first holds. */
  function Tiling(p: ParamSet): (r: Result<seq<Pass>>)
    ensures r.Ok? <==> Numeric(TileM(p)).Some? && (Numeric(TileM(p)).value > 1.0 ==> Numeric(TileN(p)).Some?)
    ensures r.Ok? ==> r.value == if TileRequested(p) then [LinalgTile(TileM(p), TileN(p))] else []
  {
    match GreaterThanOne(TileM(p))
    case Err(e) => Err(e)
    case Ok(bigM) =>
      if !bigM then Ok([])
      else match GreaterThanOne(TileN(p))
        case Err(e) => Err(e)
        case Ok(bigN) => Ok(if bigN then [LinalgTile(TileM(p), TileN(p))] else [])
  }

  /** The vectorization stage: a closed table on the string value. */
  function Vectorization(p: ParamSet): (r: seq<Pass>)
    ensures |r| <= 1 && forall q :: q in r ==> q.AffineVectorize? || q.ConvertLinalgToVector?
    ensures multiset(r)[AffineVectorize] == if Get(p, "vectorization", StrVal("none")) == StrVal("affine") then 1 else 0
    ensures multiset(r)[ConvertLinalgToVector] == if Get(p, "vectorization", StrVal("none")) == StrVal("linalg") then 1 else 0
  {
    var v := Get(p, "vectorization", StrVal("none"));
    if v == StrVal("affine") then [AffineVectorize]
    else if v == StrVal("linalg") then [ConvertLinalgToVector]
    else []
  }

  /** The unrolling stage: `unroll_factor > 1`. */
  function Unrolling(p: ParamSet): (r: Result<seq<Pass>>)
    ensures r.Ok? <==> Numeric(UnrollFactor(p)).Some?
    ensures r.Ok? ==> r.value == if Numeric(UnrollFactor(p)).value > 1.0 then [AffineLoopUnroll(UnrollFactor(p))] else []
  {
    match GreaterThanOne(UnrollFactor(p))
    case Err(e) => Err(e)
    case Ok(big) => Ok(if big then [AffineLoopUnroll(UnrollFactor(p))] else [])
  }

  /** The fusion stage: any strategy other than the string "none". */
  function Fusion(p: ParamSet): (r: seq<Pass>)
    ensures r == [] || r == [LinalgFusion]
    ensures r == [LinalgFusion] <==> Get(p, "fusion_strategy", StrVal("none")) != StrVal("none")
  {
    if Get(p, "fusion_strategy", StrVal("none")) != StrVal("none") then [LinalgFusion] else []
  }

  /** The loop-interchange stand-in: one more canonicalization. */
  function Interchange(p: ParamSet): (r: seq<Pass>)
    ensures r == [] || r == [Canonicalize]
    ensures r == [Canonicalize] <==> Truthy(Get(p, "loop_interchange", BoolVal(false)))
  {
    if Truthy(Get(p, "loop_interchange", BoolVal(false))) then [Canonicalize] else []
  }

  /** The shared-memory stage: subview promotion. */
  function Promotion(p: ParamSet): (r: seq<Pass>)
    ensures r == [] || r == [LinalgPromoteSubviews]
    ensures r == [LinalgPromoteSubviews] <==> Truthy(Get(p, "use_shared_memory", BoolVal(false)))
  {
    if Truthy(Get(p, "use_shared_memory", BoolVal(false))) then [LinalgPromoteSubviews] else []
  }

  /** The pass plan, stage by stage; a TypeError from a comparison (the tiling
      one is made first) replaces the whole plan. */
  function Plan(p: ParamSet): (r: Result<seq<Pass>>)
    ensures r.Ok? ==> 5 <= |r.value| <= 11
  {
    match Tiling(p)
    case Err(e) => Err(e)
    case Ok(tile) =>
      match Unrolling(p)
      case Err(e) => Err(e)
      case Ok(unroll) =>
        Ok(Prologue + tile + Vectorization(p) + unroll + Fusion(p) + Interchange(p) + Promotion(p) + Epilogue)
  }

  /** The pipeline string for a list of pass names. */
  function PipelineText(names: seq<string>): string
  {
    "builtin.module(" + Join(",", names) + ")"
  }

  lemma {:induction false} NamesAppend(a: seq<Pass>, b: seq<Pass>)
    ensures Names(a + b) == Names(a) + Names(b)
  {
    if |a| > 0 {
      assert (a + b)[1..] == a[1..] + b;
      NamesAppend(a[1..], b);
    } else {
      assert a + b == b;
    }
  }

  lemma PrologueNames()
    ensures Names(Prologue) == ["canonicalize", "cse"]
  {
  }

  lemma EpilogueNames()
    ensures Names(Epilogue) == ["canonicalize", "cse", "symbol-dce"]
  {
  }

  /** The names of a successful plan, stage by stage. */
  lemma PlanNames(p: ParamSet)
    requires Plan(p).Ok?
    ensures Names(Plan(p).value)
         == Names(Prologue) + Names(Tiling(p).value) + Names(Vectorization(p)) + Names(Unrolling(p).value)
          + Names(Fusion(p)) + Names(Interchange(p)) + Names(Promotion(p)) + Names(Epilogue)
  {
    var t, u := Tiling(p).value, Unrolling(p).value;
    var v, f, i, pr := Vectorization(p), Fusion(p), Interchange(p), Promotion(p);
    NamesAppend(Prologue + t + v + u + f + i + pr, Epilogue);
    NamesAppend(Prologue + t + v + u + f + i, pr);
    NamesAppend(Prologue + t + v + u + f, i);
    NamesAppend(Prologue + t + v + u, f);
    NamesAppend(Prologue + t + v, u);
    NamesAppend(Prologue + t, v);
    NamesAppend(Prologue, t);
  }

  /** Proof helper: a successful plan is the prologue, the six knob stages in
      source order, and the epilogue. */
  lemma PlanShape(p: ParamSet)
    requires Plan(p).Ok?
    ensures Tiling(p).Ok? && Unrolling(p).Ok?
    ensures Plan(p).value
         == Prologue + Tiling(p).value + Vectorization(p) + Unrolling(p).value
          + Fusion(p) + Interchange(p) + Promotion(p) + Epilogue
  {
  }

  /** Each knob stage holds at most one pass, of its own kind. */
  predicate StageKinds(t: seq<Pass>, v: seq<Pass>, u: seq<Pass>, f: seq<Pass>, i: seq<Pass>, pr: seq<Pass>)
  {
    && |t| <= 1 && |v| <= 1 && |u| <= 1 && |f| <= 1 && |i| <= 1 && |pr| <= 1
    && (forall q :: q in t ==> q.LinalgTile?)
    && (forall q :: q in v ==> q.AffineVectorize? || q.ConvertLinalgToVector?)
    && (forall q :: q in u ==> q.AffineLoopUnroll?)
    && (forall q :: q in f ==> q.LinalgFusion?)
    && (forall q :: q in i ==> q.Canonicalize?)
    && (forall q :: q in pr ==> q.LinalgPromoteSubviews?)
  }

  lemma PlanStageKinds(p: ParamSet)
    requires Plan(p).Ok?
    ensures Tiling(p).Ok? && Unrolling(p).Ok?
    ensures StageKinds(Tiling(p).value, Vectorization(p), Unrolling(p).value, Fusion(p), Interchange(p), Promotion(p))
  {
  }

  /** Tiling passes of a plan come from the tiling stage alone. */
  lemma TileCount(t: seq<Pass>, v: seq<Pass>, u: seq<Pass>, f: seq<Pass>, i: seq<Pass>, pr: seq<Pass>, x: Pass)
    requires StageKinds(t, v, u, f, i, pr) && x.LinalgTile?
    ensures var plan := Prologue + t + v + u + f + i + pr + Epilogue;
      && multiset(plan)[x] == multiset(t)[x]
      && forall q :: q in plan && q.LinalgTile? ==> q in t
  {
    assert x !in v && x !in u && x !in f && x !in i && x !in pr;
  }

  /** Unrolling passes of a plan come from the unrolling stage alone. */
  lemma UnrollCount(t: seq<Pass>, v: seq<Pass>, u: seq<Pass>, f: seq<Pass>, i: seq<Pass>, pr: seq<Pass>, x: Pass)
    requires StageKinds(t, v, u, f, i, pr) && x.AffineLoopUnroll?
    ensures var plan := Prologue + t + v + u + f + i + pr + Epilogue;
      && multiset(plan)[x] == multiset(u)[x]
      && forall q :: q in plan && q.AffineLoopUnroll? ==> q in u
  {
    assert x !in t && x !in v && x !in f && x !in i && x !in pr;
  }

  /** Vectorization passes of a plan come from the vectorization stage alone. */
  lemma VectorCount(t: seq<Pass>, v: seq<Pass>, u: seq<Pass>, f: seq<Pass>, i: seq<Pass>, pr: seq<Pass>, x: Pass)
    requires StageKinds(t, v, u, f, i, pr) && (x.AffineVectorize? || x.ConvertLinalgToVector?)
    ensures multiset(Prologue + t + v + u + f + i + pr + Epilogue)[x] == multiset(v)[x]
  {
    assert x !in t && x !in u && x !in f && x !in i && x !in pr;
  }

  /** Fusion and promotion passes come from their own stages alone. */
  lemma ToggleCounts(t: seq<Pass>, v: seq<Pass>, u: seq<Pass>, f: seq<Pass>, i: seq<Pass>, pr: seq<Pass>)
    requires StageKinds(t, v, u, f, i, pr)
    ensures var plan := Prologue + t + v + u + f + i + pr + Epilogue;
      && multiset(plan)[LinalgFusion] == multiset(f)[LinalgFusion]
      && multiset(plan)[LinalgPromoteSubviews] == multiset(pr)[LinalgPromoteSubviews]
  {
    assert LinalgFusion !in t && LinalgFusion !in v && LinalgFusion !in u && LinalgFusion !in i && LinalgFusion !in pr;
    assert LinalgPromoteSubviews !in t && LinalgPromoteSubviews !in v && LinalgPromoteSubviews !in u;
    assert LinalgPromoteSubviews !in f && LinalgPromoteSubviews !in i;
  }

  /** The cleanup passes: two canonicalizations plus the interchange stand-in,
      two CSE runs and one symbol DCE. */
  lemma CleanupCounts(t: seq<Pass>, v: seq<Pass>, u: seq<Pass>, f: seq<Pass>, i: seq<Pass>, pr: seq<Pass>)
    requires StageKinds(t, v, u, f, i, pr)
    ensures var plan := Prologue + t + v + u + f + i + pr + Epilogue;
      && multiset(plan)[Canonicalize] == 2 + multiset(i)[Canonicalize]
      && multiset(plan)[Cse] == 2
      && multiset(plan)[SymbolDce] == 1
  {
    assert Canonicalize !in t && Canonicalize !in v && Canonicalize !in u && Canonicalize !in f && Canonicalize !in pr;
    assert Cse !in t && Cse !in v && Cse !in u && Cse !in f && Cse !in i && Cse !in pr;
    assert SymbolDce !in t && SymbolDce !in v && SymbolDce !in u && SymbolDce !in f && SymbolDce !in i && SymbolDce !in pr;
  }

  /** The builder fails exactly when a comparison it makes raises: on the first
      tile size, on the second when the first exceeds one, or on the unroll
      factor; the tiling comparisons are made first. */
  lemma PlanFailsOnlyOnTypeError(p: ParamSet)
    ensures Plan(p).Ok? <==>
      && Numeric(TileM(p)).Some?
      && (Numeric(TileM(p)).value > 1.0 ==> Numeric(TileN(p)).Some?)
      && Numeric(UnrollFactor(p)).Some?
    ensures Numeric(TileM(p)).None? ==> Plan(p) == Err(GreaterThanOne(TileM(p)).msg)
  {
  }

  /** Any plan assembled from the six parts is framed by the prologue and the
      epilogue. */
  lemma Framed(t: seq<Pass>, v: seq<Pass>, u: seq<Pass>, f: seq<Pass>, i: seq<Pass>, pr: seq<Pass>)
    ensures var plan := Prologue + t + v + u + f + i + pr + Epilogue;
      && |plan| >= |Prologue| + |Epilogue|
      && plan[..|Prologue|] == Prologue
      && plan[|plan| - |Epilogue|..] == Epilogue
      && plan[|Prologue|..|plan| - |Epilogue|] == t + v + u + f + i + pr
  {
  }

  /** Every successful plan starts with `canonicalize, cse` and ends with
      `canonicalize, cse, symbol-dce`. */
  lemma PlanFrame(p: ParamSet)
    requires Plan(p).Ok?
    ensures var plan := Plan(p).value;
      && |plan| >= |Prologue| + |Epilogue|
      && plan[..|Prologue|] == Prologue
      && plan[|plan| - |Epilogue|..] == Epilogue
  {
    PlanShape(p);
    Framed(Tiling(p).value, Vectorization(p), Unrolling(p).value, Fusion(p), Interchange(p), Promotion(p));
  }

  /** The tiling pass appears, once and with both sizes, exactly when both sizes
      are numbers above one; no other tiling pass ever appears. */
  lemma TilingIff(p: ParamSet)
    requires Plan(p).Ok?
    ensures multiset(Plan(p).value)[LinalgTile(TileM(p), TileN(p))] == if TileRequested(p) then 1 else 0
    ensures forall q :: q in Plan(p).value && q.LinalgTile? ==> q == LinalgTile(TileM(p), TileN(p))
  {
    PlanShape(p);
    PlanStageKinds(p);
    TileCount(Tiling(p).value, Vectorization(p), Unrolling(p).value, Fusion(p), Interchange(p), Promotion(p),
              LinalgTile(TileM(p), TileN(p)));
  }

  /** A missing tile size, or a tile size of 0 or 1, leaves tiling out. */
  lemma TilingOmitted(p: ParamSet)
    requires Plan(p).Ok?
    requires || "tile_size_m" !in p || "tile_size_n" !in p
             || p["tile_size_m"] in {IntVal(0), IntVal(1)}
             || p["tile_size_n"] in {IntVal(0), IntVal(1)}
    ensures forall q :: q in Plan(p).value ==> !q.LinalgTile?
  {
    TilingIff(p);
  }

  /** Vectorization follows a closed table: "affine" and "linalg" each add their
      one pass, every other value (including "none" and non-strings) none. */
  lemma VectorizationTable(p: ParamSet)
    requires Plan(p).Ok?
    ensures var v := Get(p, "vectorization", StrVal("none"));
      && multiset(Plan(p).value)[AffineVectorize] == (if v == StrVal("affine") then 1 else 0)
      && multiset(Plan(p).value)[ConvertLinalgToVector] == (if v == StrVal("linalg") then 1 else 0)
  {
    PlanShape(p);
    PlanStageKinds(p);
    VectorCount(Tiling(p).value, Vectorization(p), Unrolling(p).value, Fusion(p), Interchange(p), Promotion(p),
                AffineVectorize);
    VectorCount(Tiling(p).value, Vectorization(p), Unrolling(p).value, Fusion(p), Interchange(p), Promotion(p),
                ConvertLinalgToVector);
  }

  /** The unrolling pass appears, once and with the factor, exactly when the
      factor exceeds one. */
  lemma UnrollingIff(p: ParamSet)
    requires Plan(p).Ok?
    ensures multiset(Plan(p).value)[AffineLoopUnroll(UnrollFactor(p))]
         == if Numeric(UnrollFactor(p)).value > 1.0 then 1 else 0
    ensures forall q :: q in Plan(p).value && q.AffineLoopUnroll? ==> q == AffineLoopUnroll(UnrollFactor(p))
  {
    PlanShape(p);
    PlanStageKinds(p);
    UnrollCount(Tiling(p).value, Vectorization(p), Unrolling(p).value, Fusion(p), Interchange(p), Promotion(p),
                AffineLoopUnroll(UnrollFactor(p)));
  }

  /** Fusion is toggled by any strategy but "none"; interchange only adds one
      more canonicalization; shared memory adds subview promotion. The cleanup
      passes keep their fixed counts. */
  lemma TogglesIff(p: ParamSet)
    ensures Plan(p).Ok? ==> var plan := multiset(Plan(p).value);
      && plan[LinalgFusion] == (if Get(p, "fusion_strategy", StrVal("none")) != StrVal("none") then 1 else 0)
      && plan[Canonicalize] == (if Truthy(Get(p, "loop_interchange", BoolVal(false))) then 3 else 2)
      && plan[LinalgPromoteSubviews] == (if Truthy(Get(p, "use_shared_memory", BoolVal(false))) then 1 else 0)
      && plan[Cse] == 2
      && plan[SymbolDce] == 1
  {
    if Plan(p).Ok? {
      PlanShape(p);
      PlanStageKinds(p);
      ToggleCounts(Tiling(p).value, Vectorization(p), Unrolling(p).value, Fusion(p), Interchange(p), Promotion(p));
      CleanupCounts(Tiling(p).value, Vectorization(p), Unrolling(p).value, Fusion(p), Interchange(p), Promotion(p));
    }
  }

  /** The position of a knob pass in the source's stage order; `canonicalize`
      inside the knob stages is the loop-interchange stand-in. */
  function StageRank(q: Pass): nat
  {
    match q
    case LinalgTile(_, _) => 1
    case AffineVectorize => 2
    case ConvertLinalgToVector => 2
    case AffineLoopUnroll(_) => 3
    case LinalgFusion => 4
    case Canonicalize => 5
    case LinalgPromoteSubviews => 6
    case _ => 0
  }

  predicate RanksIncrease(s: seq<Pass>)
  {
    forall j, k :: 0 <= j < k < |s| ==> StageRank(s[j]) < StageRank(s[k])
  }

  /** Appending a stage of at most one pass of rank r to passes ranked below r
      keeps the ranks increasing. */
  lemma AppendStage(a: seq<Pass>, b: seq<Pass>, r: nat)
    requires RanksIncrease(a) && forall q :: q in a ==> StageRank(q) < r
    requires |b| <= 1 && forall q :: q in b ==> StageRank(q) == r
    ensures RanksIncrease(a + b) && forall q :: q in a + b ==> StageRank(q) <= r
  {
    if |b| == 1 {
      forall j, k | 0 <= j < k < |a + b|
        ensures StageRank((a + b)[j]) < StageRank((a + b)[k])
      {
        if k == |a| {
          assert (a + b)[j] == a[j] && a[j] in a;
          assert (a + b)[k] == b[0] && b[0] in b;
        } else {
          assert (a + b)[j] == a[j] && (a + b)[k] == a[k];
        }
      }
    } else {
      assert a + b == a;
    }
  }

  /** The knob stages, each holding at most one pass of its own kind, are laid
      out in increasing stage order. */
  lemma {:induction false} StagesOrdered(t: seq<Pass>, v: seq<Pass>, u: seq<Pass>, f: seq<Pass>, i: seq<Pass>, pr: seq<Pass>)
    requires StageKinds(t, v, u, f, i, pr)
    ensures RanksIncrease(t + v + u + f + i + pr)
  {
    AppendStage([], t, 1);
    assert [] + t == t;
    AppendStage(t, v, 2);
    AppendStage(t + v, u, 3);
    AppendStage(t + v + u, f, 4);
    AppendStage(t + v + u + f, i, 5);
    AppendStage(t + v + u + f + i, pr, 6);
  }

  /** Between the fixed prologue and epilogue, the passes follow the source's
      stage order: tile, vectorize, unroll, fusion, interchange, promote; no
      stage contributes twice. */
  lemma PlanOrder(p: ParamSet)
    requires Plan(p).Ok?
    ensures var plan := Plan(p).value;
      && |plan| >= |Prologue| + |Epilogue|
      && RanksIncrease(plan[|Prologue|..|plan| - |Epilogue|])
  {
    PlanShape(p);
    PlanStageKinds(p);
    var t, v, u := Tiling(p).value, Vectorization(p), Unrolling(p).value;
    var f, i, pr := Fusion(p), Interchange(p), Promotion(p);
    Framed(t, v, u, f, i, pr);
    StagesOrdered(t, v, u, f, i, pr);
  }

  lemma PrologueText()
    ensures Join(",", ["canonicalize", "cse"]) == "canonicalize,cse"
  {
  }

  lemma EpilogueText()
    ensures Join(",", ["canonicalize", "cse", "symbol-dce"]) == "canonicalize,cse,symbol-dce"
  {
  }

  /** The pipeline text for the fixed cleanup passes around any middle. */
  lemma {:induction false} FramedText(middle: seq<string>)
    ensures PipelineText(["canonicalize", "cse"] + middle + ["canonicalize", "cse", "symbol-dce"])
         == "builtin.module(" + "canonicalize,cse," + (if |middle| == 0 then "" else Join(",", middle) + ",")
          + "canonicalize,cse,symbol-dce" + ")"
  {
    var pro, epi := ["canonicalize", "cse"], ["canonicalize", "cse", "symbol-dce"];
    PrologueText();
    EpilogueText();
    if |middle| == 0 {
      assert pro + middle + epi == pro + epi;
      JoinAppend(",", pro, epi);
    } else {
      JoinAppend(",", pro + middle, epi);
      JoinAppend(",", pro, middle);
    }
  }

  /** The pipeline text of a plan assembled from the six parts. */
  lemma PartsText(t: seq<Pass>, v: seq<Pass>, u: seq<Pass>, f: seq<Pass>, i: seq<Pass>, pr: seq<Pass>)
    ensures var middle := Names(t + v + u + f + i + pr);
      PipelineText(Names(Prologue + t + v + u + f + i + pr + Epilogue))
        == "builtin.module(" + "canonicalize,cse," + (if |middle| == 0 then "" else Join(",", middle) + ",")
         + "canonicalize,cse,symbol-dce" + ")"
  {
    var mid := t + v + u + f + i + pr;
    assert Prologue + t + v + u + f + i + pr + Epilogue == Prologue + mid + Epilogue;
    NamesAppend(Prologue + mid, Epilogue);
    NamesAppend(Prologue, mid);
    PrologueNames();
    EpilogueNames();
    FramedText(Names(mid));
  }

  /** The pipeline string of every successful plan reads
      `builtin.module(canonicalize,cse,` + the knob passes, each followed by a
      comma + `canonicalize,cse,symbol-dce)`. */
  lemma PlanText(p: ParamSet)
    requires Plan(p).Ok?
    ensures var middle := Names(Tiling(p).value + Vectorization(p) + Unrolling(p).value
                                + Fusion(p) + Interchange(p) + Promotion(p));
      PipelineText(Names(Plan(p).value))
        == "builtin.module(" + "canonicalize,cse," + (if |middle| == 0 then "" else Join(",", middle) + ",")
         + "canonicalize,cse,symbol-dce" + ")"
  {
    PlanShape(p);
    PartsText(Tiling(p).value, Vectorization(p), Unrolling(p).value, Fusion(p), Interchange(p), Promotion(p));
  }

  /** Every parameter set the sampler draws builds a plan, and that plan tiles. */
  lemma SampledPlansTile(p: ParamSet)
    requires Sampled(p)
    ensures Plan(p).Ok? && TileRequested(p)
    ensures multiset(Plan(p).value)[LinalgTile(TileM(p), TileN(p))] == 1
  {
    TilingIff(p);
  }

  /** The tiling block of `apply_transform_passes`. */
  method AppendTiling(passes: seq<string>, p: ParamSet) returns (r: Result<seq<string>>)
    ensures Tiling(p).Ok? ==> r == Ok(passes + Names(Tiling(p).value))
    ensures Tiling(p).Err? ==> r == Err(Tiling(p).msg)
  {
    var tileM := Get(p, "tile_size_m", IntVal(0));
    var tileN := Get(p, "tile_size_n", IntVal(0));
    var bigM := GreaterThanOne(tileM);
    if bigM.Err? {
      return Err(bigM.msg);
    }
    r := Ok(passes);
    assert passes + Names([]) == passes;
    if bigM.value {
      var bigN := GreaterThanOne(tileN);
      if bigN.Err? {
        return Err(bigN.msg);
      }
      if bigN.value {
        r := Ok(passes + ["linalg-tile{linalg-tile-sizes=" + PyStr(tileM) + "," + PyStr(tileN) + "}"]);
        assert Names([LinalgTile(tileM, tileN)]) == [Name(LinalgTile(tileM, tileN))];
      }
    }
  }

  /** The vectorization block of `apply_transform_passes`. */
  method AppendVectorization(passes: seq<string>, p: ParamSet) returns (r: seq<string>)
    ensures r == passes + Names(Vectorization(p))
  {
    r := passes;
    var vectorization := Get(p, "vectorization", StrVal("none"));
    if vectorization != StrVal("none") {
      if vectorization == StrVal("affine") {
        r := r + ["affine-vectorize"];
      } else if vectorization == StrVal("linalg") {
        r := r + ["convert-linalg-to-vector"];
      }
    }
  }

  /** The unrolling block of `apply_transform_passes`. */
  method AppendUnrolling(passes: seq<string>, p: ParamSet) returns (r: Result<seq<string>>)
    ensures Unrolling(p).Ok? ==> r == Ok(passes + Names(Unrolling(p).value))
    ensures Unrolling(p).Err? ==> r == Err(Unrolling(p).msg)
  {
    var unrollFactor := Get(p, "unroll_factor", IntVal(1));
    var bigU := GreaterThanOne(unrollFactor);
    if bigU.Err? {
      return Err(bigU.msg);
    }
    r := Ok(passes);
    assert passes + Names([]) == passes;
    if bigU.value {
      r := Ok(passes + ["affine-loop-unroll{unroll-factor=" + PyStr(unrollFactor) + "}"]);
      assert Names([AffineLoopUnroll(unrollFactor)]) == [Name(AffineLoopUnroll(unrollFactor))];
    }
  }

  /** The fusion, interchange and shared-memory blocks of `apply_transform_passes`. */
  method AppendToggles(passes: seq<string>, p: ParamSet) returns (r: seq<string>)
    ensures r == passes + Names(Fusion(p)) + Names(Interchange(p)) + Names(Promotion(p))
  {
    r := passes;
    if Get(p, "fusion_strategy", StrVal("none")) != StrVal("none") {
      r := r + ["linalg-fusion"];
    }
    assert r == passes + Names(Fusion(p));
    if Truthy(Get(p, "loop_interchange", BoolVal(false))) {
      r := r + ["canonicalize"];
    }
    assert r == passes + Names(Fusion(p)) + Names(Interchange(p));
    if Truthy(Get(p, "use_shared_memory", BoolVal(false))) {
      r := r + ["linalg-promote-subviews"];
    }
  }

  /** `apply_transform_passes` up to the pipeline string: the fixed cleanup
      prefix, the knob blocks in source order, the fixed cleanup suffix, joined
      into `builtin.module(...)`. */
  method BuildPipeline(p: ParamSet) returns (r: Result<string>)
    ensures Plan(p).Ok? ==> r == Ok(PipelineText(Names(Plan(p).value)))
    ensures Plan(p).Err? ==> r == Err(Plan(p).msg)
  {
    var passes: seq<string> := [];
    passes := passes + ["canonicalize", "cse"];
    PrologueNames();
    assert passes == Names(Prologue);

    var tiled := AppendTiling(passes, p);
    if tiled.Err? {
      return Err(tiled.msg);
    }
    passes := AppendVectorization(tiled.value, p);
    var unrolled := AppendUnrolling(passes, p);
    if unrolled.Err? {
      return Err(unrolled.msg);
    }
    passes := AppendToggles(unrolled.value, p);

    passes := passes + ["canonicalize", "cse", "symbol-dce"];
    EpilogueNames();
    PlanNames(p);
    r := Ok(PipelineText(passes));
  }
}
