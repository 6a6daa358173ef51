/**
  Torch-to-TCP conversion of elementwise ops (lib/Conversion/TorchToTcp/Elementwise.cpp).
  Each pattern either fails to match, with a diagnostic, or emits a sequence of
  steps whose designated result replaces the matched op. Contracts state the
  exact number of steps emitted and the dataflow tree (`Unfold`) of the result,
  which together fix every step and its inputs.
*/
module TorchToTcpElementwise {
  import opened Wrappers
  import opened TcpOps
  import opened Emission
  import opened Diagnostics

  /** Operand names of the matched Torch ops. */
  const AlphaName: string := "alpha"
  const BiasName: string := "bias"
  const InputName: string := "input"
  const OtherName: string := "other"
  const RunningMeanName: string := "running_mean"
  const RunningVarName: string := "running_var"
  const SelfName: string := "self"
  const WeightName: string := "weight"

  // ---------------------------------------------------------------------------
  // Dataflow terms the contracts are stated in

  function ArgT(name: string): Term {
    Leaf(Arg(name))
  }

  function CastT(from: ElemType, to: ElemType, resultElem: ElemType, t: Term): Term {
    Node(CastToDtype(from, to, resultElem), 0, [t])
  }

  function BcastT(slot: nat, a: Term, b: Term): Term {
    Node(BroadcastToMatchShape, slot, [a, b])
  }

  function PrimT(op: TcpOp, args: seq<Term>): Term {
    Node(Prim(op), 0, args)
  }

  /**
    A scalar promoted to a rank-0 tensor of its converted type, then cast to the
    result dtype from f64 when that type is a float and from si64 when it is an
    integer; of any other type it stays uncast.
  */
  function StagedScalarT(scalarType: ElemType, outDtype: ElemType, resultElem: ElemType, scalar: Term): Term {
    var t := Node(ScalarToTensor(scalarType), 0, [scalar]);
    if scalarType.Float? then CastT(Float(64, false), outDtype, resultElem, t)
    else if scalarType.Int? then CastT(Int(64, Signed), outDtype, resultElem, t)
    else t
  }

  function StagedScalarSteps(scalarType: ElemType): nat {
    if IsIntOrFloat(scalarType) then 2 else 1
  }

  /** A pattern that replaces the matched op by one TCP primitive applied to `operand`. */
  function Single(op: TcpOp, operand: Value): (rw: Rewrite)
    requires operand.Arg?
    ensures Valid(rw) && |rw.ops| == 1 && Unfold(rw.ops, rw.result) == PrimT(op, [Leaf(operand)])
  {
    var s := Step(Prim(op), [operand]);
    AppendWellFormed([], s);
    UnfoldAllSmall([s], 0, [operand]);
    assert [] + [s] == [s];
    Rewrite([s], Res(0, 0))
  }

  predicate IsSingle(rw: Rewrite, operand: Value) {
    |rw.ops| == 1 && rw.ops[0].kind.Prim? && rw.ops[0].uses == [operand] && rw.result == Res(0, 0)
  }

  function SingleOp(rw: Rewrite): TcpOp
    requires |rw.ops| == 1 && rw.ops[0].kind.Prim?
  {
    rw.ops[0].kind.op
  }

  // ---------------------------------------------------------------------------
  // Scalar operands and alpha

  /** `IsMultiplyAlphaOne`: alpha is the constant float 1.0 or the constant int 1. */
  predicate IsMultiplyAlphaOne(alpha: ConstArg) {
    alpha == ConstFloat(1.0) || alpha == ConstInt(1)
  }

  /** `convertScalarOperandToTensor`: emits the promotion of a scalar and, for an int or float type, its cast. */
  method ConvertScalarOperandToTensor(ops: seq<Step>, scalar: Value, scalarType: ElemType,
                                      outDtype: ElemType, resultElem: ElemType)
    returns (ops': seq<Step>, v: Value)
    requires WellFormed(ops) && Defined(ops, scalar)
    ensures WellFormed(ops') && Defined(ops', v)
    ensures |ops'| == |ops| + StagedScalarSteps(scalarType)
    ensures Unfold(ops', v) == StagedScalarT(scalarType, outDtype, resultElem, Unfold(ops, scalar))
    ensures forall w {:trigger Defined(ops', w)} :: Defined(ops, w) ==> Defined(ops', w)
    ensures forall w {:trigger Unfold(ops', w)} :: Defined(ops, w) ==> Unfold(ops', w) == Unfold(ops, w)
  {
    ops', v := Emit(ops, ScalarToTensor(scalarType), [scalar]);
    if scalarType.Float? {
      ops', v := Emit(ops', CastToDtype(Float(64, false), outDtype, resultElem), [v]);
    } else if scalarType.Int? {
      ops', v := Emit(ops', CastToDtype(Int(64, Signed), outDtype, resultElem), [v]);
    }
  }

  /** The right operand of a binary pattern: a tensor with its dtype, or a scalar with its converted type. */
  datatype RhsArg = TensorRhs(dtype: ElemType) | ScalarRhs(convertedType: ElemType)

  /** The right operand brought to the result dtype. */
  function RhsT(other: RhsArg, outDtype: ElemType, resultElem: ElemType): Term {
    match other
    case TensorRhs(d) => CastT(d, outDtype, resultElem, ArgT(OtherName))
    case ScalarRhs(t) => StagedScalarT(t, outDtype, resultElem, ArgT(OtherName))
  }

  function RhsSteps(other: RhsArg): nat {
    match other
    case TensorRhs(_) => 1
    case ScalarRhs(t) => StagedScalarSteps(t)
  }

  method StageRhs(other: RhsArg, outDtype: ElemType, resultElem: ElemType) returns (ops: seq<Step>, rhs: Value)
    ensures WellFormed(ops) && Defined(ops, rhs) && |ops| == RhsSteps(other)
    ensures Unfold(ops, rhs) == RhsT(other, outDtype, resultElem)
    ensures other.TensorRhs? ==> ops == [Step(CastToDtype(other.dtype, outDtype, resultElem), [Arg(OtherName)])]
  {
    match other
    case ScalarRhs(t) =>
      ops, rhs := ConvertScalarOperandToTensor([], Arg(OtherName), t, outDtype, resultElem);
    case TensorRhs(d) =>
      ops, rhs := Emit([], CastToDtype(d, outDtype, resultElem), [Arg(OtherName)]);
  }

  /**
    The common prologue of add/sub, mul, div and atan2: bring the rhs to the
    result dtype first, then the lhs, and broadcast the two casts together.
  */
  method CastAndBroadcast(selfDtype: ElemType, other: RhsArg, outDtype: ElemType, resultElem: ElemType)
    returns (ops: seq<Step>, lhs: Value, rhs: Value)
    ensures WellFormed(ops) && Defined(ops, lhs) && Defined(ops, rhs)
    ensures |ops| == RhsSteps(other) + 2
    ensures Unfold(ops, lhs) == BcastT(0, CastT(selfDtype, outDtype, resultElem, ArgT(SelfName)), RhsT(other, outDtype, resultElem))
    ensures Unfold(ops, rhs) == BcastT(1, CastT(selfDtype, outDtype, resultElem, ArgT(SelfName)), RhsT(other, outDtype, resultElem))
    ensures other.TensorRhs? ==> ops[0] == Step(CastToDtype(other.dtype, outDtype, resultElem), [Arg(OtherName)])
    ensures ops[RhsSteps(other)] == Step(CastToDtype(selfDtype, outDtype, resultElem), [Arg(SelfName)])
  {
    ops, rhs := StageRhs(other, outDtype, resultElem);
    ghost var tR := Unfold(ops, rhs);
    ops, lhs := Emit(ops, CastToDtype(selfDtype, outDtype, resultElem), [Arg(SelfName)]);
    assert Unfold(ops, rhs) == tR;
    ops, lhs, rhs := EmitBroadcast(ops, lhs, rhs);
  }

  /** Alpha promoted like a scalar operand, broadcast against the rhs, and multiplied into it. */
  method ScaleByAlpha(ops: seq<Step>, rhs: Value, alphaType: ElemType, outDtype: ElemType, resultElem: ElemType)
    returns (ops': seq<Step>, rhs': Value)
    requires WellFormed(ops) && Defined(ops, rhs)
    ensures WellFormed(ops') && Defined(ops', rhs')
    ensures |ops'| == |ops| + StagedScalarSteps(alphaType) + 2
    ensures
      var a := StagedScalarT(alphaType, outDtype, resultElem, ArgT(AlphaName));
      Unfold(ops', rhs') == PrimT(MulOp, [BcastT(0, a, Unfold(ops, rhs)), BcastT(1, a, Unfold(ops, rhs))])
    ensures forall w {:trigger Defined(ops', w)} :: Defined(ops, w) ==> Defined(ops', w)
    ensures forall w {:trigger Unfold(ops', w)} :: Defined(ops, w) ==> Unfold(ops', w) == Unfold(ops, w)
  {
    ghost var tR := Unfold(ops, rhs);
    var a;
    ops', a := ConvertScalarOperandToTensor(ops, Arg(AlphaName), alphaType, outDtype, resultElem);
    assert Unfold(ops', rhs) == tR;
    ops', a, rhs' := EmitBroadcast(ops', a, rhs);
    ops', rhs' := Emit(ops', Prim(MulOp), [a, rhs']);
  }

  // ---------------------------------------------------------------------------
  // add / sub, mul, div, atan2

  /**
    ConvertAtenAddSubOp for `aten.add`/`aten.sub` (Tensor and Scalar forms). It
    fails exactly on an unranked lhs. Both operands are brought to the result
    dtype and broadcast; a non-unit alpha is multiplied into the rhs; the
    add/sub comes last.
  */
  method ConvertAtenAddSub(tcpOp: TcpOp, self: TensorArg, other: RhsArg, alpha: ConstArg, alphaType: ElemType,
                           outDtype: ElemType, resultElem: ElemType)
    returns (r: Result<Rewrite>)
    requires tcpOp == AddOp || tcpOp == SubOp
    ensures r.Failure? <==> !self.ranked
    ensures r.Success? ==> Valid(r.value)
    ensures r.Success? ==>
      |r.value.ops| == RhsSteps(other) + 3 + (if IsMultiplyAlphaOne(alpha) then 0 else StagedScalarSteps(alphaType) + 2)
    ensures r.Success? ==>
      var l := CastT(self.dtype, outDtype, resultElem, ArgT(SelfName));
      var rr := RhsT(other, outDtype, resultElem);
      var a := StagedScalarT(alphaType, outDtype, resultElem, ArgT(AlphaName));
      var rhs :=
        if IsMultiplyAlphaOne(alpha) then BcastT(1, l, rr)
        else PrimT(MulOp, [BcastT(0, a, BcastT(1, l, rr)), BcastT(1, a, BcastT(1, l, rr))]);
      Unfold(r.value.ops, r.value.result) == PrimT(tcpOp, [BcastT(0, l, rr), rhs])
  {
    if !self.ranked {
      return Failure(OnlyRanked);
    }
    var ops, lhs, rhs := CastAndBroadcast(self.dtype, other, outDtype, resultElem);
    ghost var tL := Unfold(ops, lhs);
    if !IsMultiplyAlphaOne(alpha) {
      ops, rhs := ScaleByAlpha(ops, rhs, alphaType, outDtype, resultElem);
    }
    assert Unfold(ops, lhs) == tL;
    var res;
    ops, res := Emit(ops, Prim(tcpOp), [lhs, rhs]);
    r := Success(Rewrite(ops, res));
  }

  /**
    ConvertAtenMulOp for `aten.mul` (Tensor and Scalar forms): fails exactly on an
    unranked lhs; otherwise one `tcp.mul` of the two broadcast casts.
  */
  method ConvertAtenMul(self: TensorArg, other: RhsArg, outDtype: ElemType, resultElem: ElemType)
    returns (r: Result<Rewrite>)
    ensures r.Failure? <==> !self.ranked
    ensures r.Success? ==> Valid(r.value) && |r.value.ops| == RhsSteps(other) + 3
    ensures r.Success? ==>
      var l := CastT(self.dtype, outDtype, resultElem, ArgT(SelfName));
      var rr := RhsT(other, outDtype, resultElem);
      Unfold(r.value.ops, r.value.result) == PrimT(MulOp, [BcastT(0, l, rr), BcastT(1, l, rr)])
  {
    if !self.ranked {
      return Failure(OnlyRanked);
    }
    var ops, lhs, rhs := CastAndBroadcast(self.dtype, other, outDtype, resultElem);
    var res;
    ops, res := Emit(ops, Prim(MulOp), [lhs, rhs]);
    r := Success(Rewrite(ops, res));
  }

  /**
    The division dispatch: a float output dtype gives DivF; otherwise lhs, rhs and
    output must share one signedness that is not Signless, and the op is DivUI for
    Unsigned and DivSI for Signed, always rounding by truncation.
  */
  function DivDispatch(lhsType: ElemType, rhsType: ElemType, outType: ElemType): (r: Result<TcpOp>)
    requires !outType.Float? ==> lhsType.Int? && rhsType.Int? && outType.Int?
    ensures outType.Float? ==> r == Success(DivFOp)
    ensures !outType.Float? ==>
      (r.Success? <==> lhsType.sign == rhsType.sign == outType.sign && outType.sign != Signless)
    ensures !outType.Float? && r.Success? ==>
      (r.value == DivUIOp(Trunc) <==> outType.sign == Unsigned) &&
      (r.value == DivSIOp(Trunc) <==> outType.sign == Signed)
  {
    if outType.Float? then Success(DivFOp)
    else if lhsType.sign != rhsType.sign || lhsType.sign != outType.sign then
      Failure(MixedSignedness)
    else if lhsType.sign == Signless then
      Failure(SignlessDivision)
    else if outType.sign == Unsigned then Success(DivUIOp(Trunc))
    else
      assert outType.sign == Signed;
      Success(DivSIOp(Trunc))
  }

  /** The type the division compares with the lhs: a tensor rhs's dtype, a scalar rhs's converted type. */
  function RhsDivType(other: RhsArg): ElemType {
    match other
    case TensorRhs(d) => d
    case ScalarRhs(t) => t
  }

  /**
    ConvertAtenDivOp for `aten.div` (Tensor and Scalar forms): the mul prologue,
    then the division `DivDispatch` selects; a dispatch failure fails the match.
  */
  method ConvertAtenDiv(self: TensorArg, other: RhsArg, outDtype: ElemType, resultElem: ElemType)
    returns (r: Result<Rewrite>)
    requires self.ranked && !outDtype.Float? ==> self.dtype.Int? && RhsDivType(other).Int? && outDtype.Int?
    ensures r.Failure? <==> !self.ranked || DivDispatch(self.dtype, RhsDivType(other), outDtype).Failure?
    ensures r.Success? ==> Valid(r.value) && |r.value.ops| == RhsSteps(other) + 3
    ensures r.Success? ==>
      var l := CastT(self.dtype, outDtype, resultElem, ArgT(SelfName));
      var rr := RhsT(other, outDtype, resultElem);
      Unfold(r.value.ops, r.value.result) ==
        PrimT(DivDispatch(self.dtype, RhsDivType(other), outDtype).value, [BcastT(0, l, rr), BcastT(1, l, rr)])
  {
    if !self.ranked {
      return Failure(OnlyRanked);
    }
    var ops, lhs, rhs := CastAndBroadcast(self.dtype, other, outDtype, resultElem);
    var div := DivDispatch(self.dtype, RhsDivType(other), outDtype);
    if div.Failure? {
      return Failure(div.error);
    }
    var res;
    ops, res := Emit(ops, Prim(div.value), [lhs, rhs]);
    r := Success(Rewrite(ops, res));
  }

  /**
    ConvertAtenAtan2Op: both operands ranked with float element types, else the
    match fails; the rhs is cast first, then the lhs, then both are broadcast and
    fed to `tcp.atan2`.
  */
  method ConvertAtenAtan2(self: TensorArg, other: TensorArg, outDtype: ElemType, resultElem: ElemType)
    returns (r: Result<Rewrite>)
    ensures r.Failure? <==> !self.ranked || !other.ranked || !self.elem.Float? || !other.elem.Float?
    ensures r.Success? ==> Valid(r.value) && |r.value.ops| == 4
    ensures r.Success? ==>
      var l := CastT(self.dtype, outDtype, resultElem, ArgT(SelfName));
      var rr := CastT(other.dtype, outDtype, resultElem, ArgT(OtherName));
      Unfold(r.value.ops, r.value.result) == PrimT(Atan2Op, [BcastT(0, l, rr), BcastT(1, l, rr)])
    ensures r.Success? ==>
      r.value.ops[0] == Step(CastToDtype(other.dtype, outDtype, resultElem), [Arg(OtherName)]) &&
      r.value.ops[1] == Step(CastToDtype(self.dtype, outDtype, resultElem), [Arg(SelfName)])
  {
    if !self.ranked || !other.ranked {
      return Failure(OnlyRanked);
    }
    if !self.elem.Float? || !other.elem.Float? {
      return Failure(InputsMustBeFloat);
    }
    var ops, lhs, rhs := CastAndBroadcast(self.dtype, TensorRhs(other.dtype), outDtype, resultElem);
    var res;
    ops, res := Emit(ops, Prim(Atan2Op), [lhs, rhs]);
    r := Success(Rewrite(ops, res));
  }

  // ---------------------------------------------------------------------------
  // batch_norm

  /** A per-channel parameter expanded from [C] to the input's rank along axis 1. */
  function ChannelT(elem: ElemType, name: string): Term {
    Node(Broadcast0DOr1DToND(elem, Some(1)), 0, [ArgT(name), ArgT(InputName)])
  }

  /** The inference formula over the broadcast parameters. */
  function BatchNormT(mean: Term, variance: Term, weight: Term, bias: Term, eps: Term): Term {
    var normalized := PrimT(DivFOp, [PrimT(SubOp, [ArgT(InputName), mean]),
                                     PrimT(SqrtOp, [PrimT(AddOp, [variance, eps])])]);
    PrimT(AddOp, [PrimT(MulOp, [weight, normalized]), bias])
  }

  method EmitChannelBroadcasts(ops: seq<Step>, e: ElemType)
    returns (ops': seq<Step>, mean: Value, variance: Value, weight: Value, bias: Value)
    requires WellFormed(ops)
    ensures WellFormed(ops') && |ops'| == |ops| + 4
    ensures Defined(ops', mean) && Defined(ops', variance) && Defined(ops', weight) && Defined(ops', bias)
    ensures Unfold(ops', mean) == ChannelT(e, RunningMeanName)
    ensures Unfold(ops', variance) == ChannelT(e, RunningVarName)
    ensures Unfold(ops', weight) == ChannelT(e, WeightName)
    ensures Unfold(ops', bias) == ChannelT(e, BiasName)
    ensures forall w {:trigger Defined(ops', w)} :: Defined(ops, w) ==> Defined(ops', w)
    ensures forall w {:trigger Unfold(ops', w)} :: Defined(ops, w) ==> Unfold(ops', w) == Unfold(ops, w)
  {
    ops', mean := Emit(ops, Broadcast0DOr1DToND(e, Some(1)), [Arg(RunningMeanName), Arg(InputName)]);
    ops', variance := Emit(ops', Broadcast0DOr1DToND(e, Some(1)), [Arg(RunningVarName), Arg(InputName)]);
    ghost var ops2 := ops';
    ops', weight := Emit(ops', Broadcast0DOr1DToND(e, Some(1)), [Arg(WeightName), Arg(InputName)]);
    ops', bias := Emit(ops', Broadcast0DOr1DToND(e, Some(1)), [Arg(BiasName), Arg(InputName)]);
    assert Unfold(ops2, mean) == ChannelT(e, RunningMeanName);
  }

  /** `(input - mean) / sqrt(var + eps)`. */
  method EmitNormalized(ops: seq<Step>, mean: Value, variance: Value, eps: Value) returns (ops': seq<Step>, res: Value)
    requires WellFormed(ops) && Defined(ops, mean) && Defined(ops, variance) && Defined(ops, eps)
    ensures WellFormed(ops') && Defined(ops', res) && |ops'| == |ops| + 4
    ensures Unfold(ops', res) == PrimT(DivFOp, [PrimT(SubOp, [ArgT(InputName), Unfold(ops, mean)]),
                                                 PrimT(SqrtOp, [PrimT(AddOp, [Unfold(ops, variance), Unfold(ops, eps)])])])
    ensures forall w {:trigger Defined(ops', w)} :: Defined(ops, w) ==> Defined(ops', w)
    ensures forall w {:trigger Unfold(ops', w)} :: Defined(ops, w) ==> Unfold(ops', w) == Unfold(ops, w)
  {
    ghost var tVar, tEps := Unfold(ops, variance), Unfold(ops, eps);
    var op1, op2, op3;
    ops', op1 := Emit(ops, Prim(SubOp), [Arg(InputName), mean]);
    ghost var t1 := Unfold(ops', op1);
    assert Unfold(ops', variance) == tVar && Unfold(ops', eps) == tEps;
    ops', op2 := Emit(ops', Prim(AddOp), [variance, eps]);
    ops', op3 := Emit(ops', Prim(SqrtOp), [op2]);
    assert Unfold(ops', op1) == t1;
    ops', res := Emit(ops', Prim(DivFOp), [op1, op3]);
  }

  method EmitBatchNormArithmetic(ops: seq<Step>, mean: Value, variance: Value, weight: Value, bias: Value, eps: Value)
    returns (ops': seq<Step>, res: Value)
    requires WellFormed(ops)
    requires Defined(ops, mean) && Defined(ops, variance) && Defined(ops, weight) && Defined(ops, bias) && Defined(ops, eps)
    ensures WellFormed(ops') && Defined(ops', res) && |ops'| == |ops| + 6
    ensures Unfold(ops', res) ==
      BatchNormT(Unfold(ops, mean), Unfold(ops, variance), Unfold(ops, weight), Unfold(ops, bias), Unfold(ops, eps))
  {
    ghost var tWeight, tBias := Unfold(ops, weight), Unfold(ops, bias);
    var op4, op5;
    ops', op4 := EmitNormalized(ops, mean, variance, eps);
    assert Unfold(ops', weight) == tWeight;
    ops', op5 := Emit(ops', Prim(MulOp), [weight, op4]);
    assert Unfold(ops', bias) == tBias;
    ops', res := Emit(ops', Prim(AddOp), [op5, bias]);
  }

  predicate BatchNormRanked(input: TensorArg, weight: TensorArg, bias: TensorArg, mean: TensorArg, variance: TensorArg) {
    input.ranked && weight.ranked && bias.ranked && mean.ranked && variance.ranked
  }

  /**
    ConvertAtenBatchNormOp (inference only). It fails on an unranked operand, a
    running mean or variance with zero elements, an eps that is not a float
    constant, or a training flag that is not the constant `false`. Otherwise it
    emits the eps constant, five broadcasts and sub, add, sqrt, divf, mul, add
    computing `weight * (input - mean) / sqrt(var + eps) + bias`; momentum and
    cudnn_enabled play no part.
  */
  method ConvertAtenBatchNorm(input: TensorArg, weight: TensorArg, bias: TensorArg, mean: TensorArg,
                              variance: TensorArg, eps: ConstArg, training: ConstArg)
    returns (r: Result<Rewrite>)
    requires BatchNormRanked(input, weight, bias, mean, variance) ==> IsStatic(mean.shape) && IsStatic(variance.shape)
    ensures r.Failure? <==>
      !BatchNormRanked(input, weight, bias, mean, variance) ||
      NumElements(mean.shape) == 0 || NumElements(variance.shape) == 0 ||
      !eps.ConstFloat? || training != ConstBool(false)
    ensures r.Success? ==> Valid(r.value) && |r.value.ops| == 12
    ensures r.Success? ==>
      var e := input.elem;
      var epsT := Node(Broadcast0DOr1DToND(e, None), 0, [Node(ConstTensor(eps.f), 0, []), ArgT(InputName)]);
      Unfold(r.value.ops, r.value.result) ==
        BatchNormT(ChannelT(e, RunningMeanName), ChannelT(e, RunningVarName), ChannelT(e, WeightName), ChannelT(e, BiasName), epsT)
  {
    if !BatchNormRanked(input, weight, bias, mean, variance) {
      return Failure(BatchNormOnlyRanked);
    }
    if NumElements(mean.shape) == 0 || NumElements(variance.shape) == 0 {
      return Failure(ZeroElementStatistics);
    }
    if !eps.ConstFloat? {
      return Failure(NonFloatEps);
    }
    var ops, epsVal := Emit([], ConstTensor(eps.f), []);
    if !training.ConstBool? {
      return Failure(NonBoolTraining);
    }
    if training.b {
      return Failure(OnlyInferenceBatchNorm);
    }
    var e := input.elem;
    ghost var tEpsVal := Unfold(ops, epsVal);
    var meanB, varB, weightB, biasB, epsB;
    ops, meanB, varB, weightB, biasB := EmitChannelBroadcasts(ops, e);
    assert Unfold(ops, epsVal) == tEpsVal;
    ghost var tMean, tVar, tWeight, tBias := Unfold(ops, meanB), Unfold(ops, varB), Unfold(ops, weightB), Unfold(ops, biasB);
    ops, epsB := Emit(ops, Broadcast0DOr1DToND(e, None), [epsVal, Arg(InputName)]);
    assert Unfold(ops, meanB) == tMean && Unfold(ops, varB) == tVar;
    assert Unfold(ops, weightB) == tWeight && Unfold(ops, biasB) == tBias;
    var res;
    ops, res := EmitBatchNormArithmetic(ops, meanB, varB, weightB, biasB, epsB);
    r := Success(Rewrite(ops, res));
  }

  // ---------------------------------------------------------------------------
  // clamp and relu

  /** A clamp bound the pattern can encode: absent, an int constant, or a float constant. */
  predicate BoundSupported(c: ConstArg) {
    c.NoneArg? || c.ConstInt? || c.ConstFloat?
  }

  /** `static_cast<int64_t>` of a double: truncation toward zero. */
  function TruncToInt(f: real): int {
    if f >= 0.0 then f.Floor else -((-f).Floor)
  }

  const Int64Min: int := -0x8000_0000_0000_0000
  const Int64Max: int := 0x7fff_ffff_ffff_ffff

  /** A float bound converted to an int attribute must fit int64, otherwise the cast is undefined. */
  predicate BoundFits(c: ConstArg, elem: ElemType) {
    c.ConstFloat? && elem.Int? ==> Int64Min <= TruncToInt(c.f) <= Int64Max
  }

  function FloatBound(c: ConstArg): real
    requires c.ConstInt? || c.ConstFloat?
  {
    if c.ConstFloat? then c.f else c.i as real
  }

  function IntBound(c: ConstArg): int
    requires c.ConstInt? || c.ConstFloat?
  {
    if c.ConstFloat? then TruncToInt(c.f) else c.i
  }

  /** The float and integer attribute slots a bound fills, by element type. */
  function BoundAttrs(c: ConstArg, elem: ElemType): (r: (Option<real>, Option<int>))
    requires BoundSupported(c)
    ensures BoundPlaced(r.0, r.1, c, elem)
  {
    if c.NoneArg? then (None, None)
    else if elem.Float? then (Some(FloatBound(c)), None)
    else if elem.Int? then (None, Some(IntBound(c)))
    else (None, None)
  }

  /** A present bound lands only in the float slot for a float element type and only in the int slot for an integer one. */
  predicate BoundPlaced(f: Option<real>, i: Option<int>, c: ConstArg, elem: ElemType)
    requires BoundSupported(c)
  {
    && (f.Some? <==> elem.Float? && !c.NoneArg?)
    && (i.Some? <==> elem.Int? && !c.NoneArg?)
    && (f.Some? ==> f.value == FloatBound(c))
    && (i.Some? ==> i.value == IntBound(c))
  }

  /**
    ConvertAtenClampOp: fails on an unranked input, a non-int non-float element
    type, or when both bounds are None; otherwise one `tcp.clamp` whose attributes
    hold the present bounds in the slots of the element type.
  */
  function ConvertAtenClamp(self: TensorArg, min: ConstArg, max: ConstArg): (r: Result<Rewrite>)
    requires self.ranked && IsIntOrFloat(self.elem) ==>
      BoundSupported(min) && BoundSupported(max) && BoundFits(min, self.elem) && BoundFits(max, self.elem)
    ensures r.Failure? <==> !self.ranked || !IsIntOrFloat(self.elem) || (min.NoneArg? && max.NoneArg?)
    ensures r.Success? ==> IsSingle(r.value, Arg(SelfName)) && SingleOp(r.value).ClampOp?
    ensures r.Success? ==>
      var c := SingleOp(r.value);
      BoundPlaced(c.minFloat, c.minInt, min, self.elem) && BoundPlaced(c.maxFloat, c.maxInt, max, self.elem)
  {
    if !self.ranked then Failure(OnlyRanked)
    else if !IsIntOrFloat(self.elem) then Failure(InputMustBeIntOrFloat)
    else if min.NoneArg? && max.NoneArg? then Failure(ClampNeedsBound)
    else
      var (minF, minI) := BoundAttrs(min, self.elem);
      var (maxF, maxI) := BoundAttrs(max, self.elem);
      Success(Single(ClampOp(minF, maxF, minI, maxI), Arg(SelfName)))
  }

  /** ConvertAtenReluOp: a clamp with minimum zero of the element type's kind and no maximum. */
  function ConvertAtenRelu(self: TensorArg): (r: Result<Rewrite>)
    ensures r.Failure? <==> !self.ranked || !IsIntOrFloat(self.elem)
  {
    if !self.ranked then Failure(OnlyRanked)
    else if !IsIntOrFloat(self.elem) then Failure(InputMustBeIntOrFloat)
    else if self.elem.Float? then Success(Single(ClampOp(Some(0.0), None, None, None), Arg(SelfName)))
    else Success(Single(ClampOp(None, None, Some(0), None), Arg(SelfName)))
  }

  /** Relu converts exactly as clamp with min the integer constant 0 and max None. */
  lemma ReluIsClamp(self: TensorArg)
    ensures ConvertAtenRelu(self) == ConvertAtenClamp(self, ConstInt(0), NoneArg)
  {
  }

  // ---------------------------------------------------------------------------
  // sqrt, log1p and the unary ops

  /**
    ConvertAtenSqrtOp: fails on an unranked input or a non-int non-float element
    type; an integer input is first cast to the (float) result dtype.
  */
  method ConvertAtenSqrt(self: TensorArg, outDtype: ElemType, resultElem: ElemType) returns (r: Result<Rewrite>)
    ensures r.Failure? <==> !self.ranked || !IsIntOrFloat(self.elem)
    ensures r.Success? ==> Valid(r.value) && |r.value.ops| == (if self.elem.Int? then 2 else 1)
    ensures r.Success? ==>
      Unfold(r.value.ops, r.value.result) ==
        PrimT(SqrtOp, [if self.elem.Int? then CastT(self.dtype, outDtype, resultElem, ArgT(SelfName)) else ArgT(SelfName)])
  {
    if !self.ranked {
      return Failure(OnlyRanked);
    }
    if !IsIntOrFloat(self.elem) {
      return Failure(InputMustBeIntOrFloat);
    }
    var ops: seq<Step> := [];
    var newInput := Arg(SelfName);
    if self.elem.Int? {
      ops, newInput := Emit(ops, CastToDtype(self.dtype, outDtype, resultElem), [newInput]);
    }
    var res;
    ops, res := Emit(ops, Prim(SqrtOp), [newInput]);
    r := Success(Rewrite(ops, res));
  }

  /** The constant 1.0 broadcast to the input's shape. */
  function OneLikeT(elem: ElemType): Term {
    Node(Broadcast0DOr1DToND(elem, None), 0, [Node(ConstTensor(1.0), 0, []), ArgT(SelfName)])
  }

  method EmitOneLike(elem: ElemType) returns (ops: seq<Step>, one: Value)
    ensures WellFormed(ops) && Defined(ops, one) && |ops| == 2
    ensures Unfold(ops, one) == OneLikeT(elem)
  {
    ops, one := Emit([], ConstTensor(1.0), []);
    ops, one := Emit(ops, Broadcast0DOr1DToND(elem, None), [one, Arg(SelfName)]);
  }

  /**
    ConvertAtenLog1pOp: requires a ranked float input; emits `add(x, broadcast(1.0))`
    and then `log` of the sum.
  */
  method ConvertAtenLog1p(self: TensorArg) returns (r: Result<Rewrite>)
    ensures r.Failure? <==> !self.ranked || !self.elem.Float?
    ensures r.Success? ==> Valid(r.value) && |r.value.ops| == 4
    ensures r.Success? ==>
      Unfold(r.value.ops, r.value.result) == PrimT(LogOp, [PrimT(AddOp, [ArgT(SelfName), OneLikeT(self.elem)])])
  {
    if !self.ranked {
      return Failure(OnlyRanked);
    }
    if !self.elem.Float? {
      return Failure(OnlyFloatSupported);
    }
    var ops, one := EmitOneLike(self.elem);
    var addOp, logOp;
    ops, addOp := Emit(ops, Prim(AddOp), [Arg(SelfName), one]);
    ops, logOp := Emit(ops, Prim(LogOp), [addOp]);
    r := Success(Rewrite(ops, logOp));
  }

  /** ConvertAtenUnaryIntOrFpOp (registered for abs): one `tcpOp` on a ranked int or float input. */
  function ConvertAtenUnaryIntOrFp(tcpOp: TcpOp, self: TensorArg): (r: Result<Rewrite>)
    ensures r.Failure? <==> !self.ranked || !IsIntOrFloat(self.elem)
    ensures r.Success? ==> IsSingle(r.value, Arg(SelfName)) && SingleOp(r.value) == tcpOp
  {
    if !self.ranked then Failure(OnlyRanked)
    else if !IsIntOrFloat(self.elem) then Failure(InputMustBeIntOrFloat)
    else Success(Single(tcpOp, Arg(SelfName)))
  }

  /** The source ops registered with ConvertAtenUnaryFpOnlyOp. */
  datatype AtenUnary = AtenCeil | AtenFloor | AtenRound | AtenSigmoid | AtenTanh | AtenSin | AtenCos | AtenLog | AtenNeg | AtenAtan

  /** The TCP op each of them becomes; `aten.round` rounds half to even. */
  function FpOnlyTarget(a: AtenUnary): (op: TcpOp)
    ensures a == AtenRound <==> op == RoundEvenOp
    ensures op != RoundOp
  {
    match a
    case AtenCeil => CeilOp
    case AtenFloor => FloorOp
    case AtenRound => RoundEvenOp
    case AtenSigmoid => SigmoidOp
    case AtenTanh => TanhOp
    case AtenSin => SinOp
    case AtenCos => CosOp
    case AtenLog => LogOp
    case AtenNeg => NegOp
    case AtenAtan => AtanOp
  }

  /** ConvertAtenUnaryFpOnlyOp: one TCP op on a ranked float input. */
  function ConvertAtenUnaryFpOnly(a: AtenUnary, self: TensorArg): (r: Result<Rewrite>)
    ensures r.Failure? <==> !self.ranked || !self.elem.Float?
    ensures r.Success? ==> IsSingle(r.value, Arg(SelfName)) && SingleOp(r.value) == FpOnlyTarget(a)
  {
    if !self.ranked then Failure(OnlyRanked)
    else if !self.elem.Float? then Failure(InputMustBeFloat)
    else Success(Single(FpOnlyTarget(a), Arg(SelfName)))
  }

  /** The dynamic legality of the fp-only unary ops: an op with a non-float input stays in Torch. */
  predicate IsFpOnlyOpLegal(self: TensorArg) {
    !self.elem.Float?
  }

  /**
    On ranked inputs the fp-only pattern converts exactly the ops the legality
    predicate marks illegal, and leaves every legal one alone.
  */
  lemma FpOnlyLegalityMatchesPattern(a: AtenUnary, self: TensorArg)
    requires self.ranked
    ensures ConvertAtenUnaryFpOnly(a, self).Success? <==> !IsFpOnlyOpLegal(self)
  {
  }

  // ---------------------------------------------------------------------------
  // to_dtype

  /** torch's MemoryFormat enumerators accepted by to_dtype. */
  const MemoryFormatContiguous: int := 0
  const MemoryFormatPreserve: int := 1

  predicate MemoryFormatSupported(mf: ConstArg) {
    mf.NoneArg? || mf == ConstInt(MemoryFormatContiguous) || mf == ConstInt(MemoryFormatPreserve)
  }

  /** The signedness attribute of one side of a cast: an integer's own signedness, nothing for a float. */
  function SideSignedness(t: ElemType): Option<Signedness> {
    if t.Int? then Some(t.sign) else None
  }

  /**
    The cast the dtype pair selects: fp to fp carries no signedness, fp to int the
    output's, int to fp the input's, int to int both; any other output type fails.
  */
  function ToDtypeCast(inDtype: ElemType, outDtype: ElemType): (r: Result<TcpOp>)
    requires IsIntOrFloat(inDtype)
    ensures r.Success? <==> IsIntOrFloat(outDtype)
    ensures r.Success? ==> r.value == CastOp(SideSignedness(inDtype), SideSignedness(outDtype))
  {
    if inDtype.Float? && outDtype.Float? then Success(CastOp(None, None))
    else if inDtype.Float? then
      if outDtype.Int? then Success(CastOp(None, Some(outDtype.sign)))
      else Failure(ExpectIntegerOutput)
    else if outDtype.Float? then Success(CastOp(Some(inDtype.sign), None))
    else if outDtype.Int? then Success(CastOp(Some(inDtype.sign), Some(outDtype.sign)))
    else Failure(InvalidCastTypes)
  }

  /**
    ConvertAtenToDtypeOp: it fails unless input and output are value tensors, the
    input dtype is int or float, `non_blocking` and `copy` are the constant `false`,
    the memory format is None, Contiguous or Preserve, and the output dtype is int
    or float. It emits one `tcp.cast` whose signedness is attached exactly on the
    integer side(s).
  */
  function ConvertAtenToDtype(inputIsValueTensor: bool, outputIsValueTensor: bool, inDtype: ElemType, outDtype: ElemType,
                              nonBlocking: ConstArg, copy: ConstArg, memoryFormat: ConstArg): (r: Result<Rewrite>)
    ensures r.Failure? <==>
      !inputIsValueTensor || !outputIsValueTensor || !IsIntOrFloat(inDtype) ||
      nonBlocking != ConstBool(false) || copy != ConstBool(false) ||
      !MemoryFormatSupported(memoryFormat) || !IsIntOrFloat(outDtype)
    ensures r.Success? ==>
      IsSingle(r.value, Arg(SelfName)) && SingleOp(r.value) == CastOp(SideSignedness(inDtype), SideSignedness(outDtype))
  {
    if !inputIsValueTensor || !outputIsValueTensor then Failure(ExpectedValueTensors)
    else if !IsIntOrFloat(inDtype) then Failure(InputMustBeIntOrFloat)
    else if !(nonBlocking.ConstBool? && !nonBlocking.b) then Failure(NonBlockingMustBeFalse)
    else if !(copy.ConstBool? && !copy.b) then Failure(CopyMustBeFalse)
    else if !memoryFormat.NoneArg? &&
            !(memoryFormat.ConstInt? && (memoryFormat.i == MemoryFormatContiguous || memoryFormat.i == MemoryFormatPreserve)) then
      Failure(UnsupportedMemoryFormat)
    else
      match ToDtypeCast(inDtype, outDtype)
      case Success(op) => Success(Single(op, Arg(SelfName)))
      case Failure(e) => Failure(e)
  }

  /** A float-to-float to_dtype carries no signedness on either side. */
  lemma FloatToFloatCastIsUnsigned(inDtype: ElemType, outDtype: ElemType, mf: ConstArg)
    requires inDtype.Float? && outDtype.Float? && MemoryFormatSupported(mf)
    ensures var r := ConvertAtenToDtype(true, true, inDtype, outDtype, ConstBool(false), ConstBool(false), mf);
            r.Success? && SingleOp(r.value) == CastOp(None, None)
  {
  }
}
