/**
  The TCP-to-Linalg lowering of TCP's elementwise ops: each op becomes a
  `linalg.generic` over its ranked tensor operands whose body computes the
  result element from the operand elements with arith and math ops. The body
  is a scalar op tree; float ops are left uninterpreted here.
*/
module TcpToLinalgElementwise {
  import opened Wrappers
  import opened TcpOps
  import opened Diagnostics

  /** The arith and math ops a payload is built from. */
  datatype ScalarOp =
    | MathTanh | MathExp | MathSqrt | MathCeil | MathFloor | MathRound | MathRoundEven
    | MathSin | MathCos | MathAbsF | MathAbsI | MathLog | MathAtan | MathAtan2
    | ArithMaximumF | ArithMinimumF | ArithMaxSI | ArithMinSI
    | ArithNegF | ArithAddF | ArithSubF | ArithMulF | ArithDivF
    | ArithAddI | ArithSubI | ArithMulI
    | ArithDivSI | ArithCeilDivSI | ArithFloorDivSI | ArithDivUI | ArithCeilDivUI
    | ArithCmpFUne | ArithCmpINe

  /** The arith conversion ops, each producing a value of a given type. */
  datatype ConversionOp =
    | ArithTruncF | ArithExtF | ArithUIToFP | ArithSIToFP | ArithFPToUI | ArithFPToSI
    | ArithTruncI | ArithExtUI | ArithExtSI

  /** A scalar op tree over the payload's block arguments (one per tensor operand). */
  datatype Scalar =
    | BlockArg(index: nat)
    | FloatConst(f: real, elemType: ElemType)    // arith.constant of a float type
    | IntConst(i: int, elemType: ElemType)       // arith.constant of an integer type
    | ZeroOf(elemType: ElemType)                 // arith.constant zero of a type
    | Apply(op: ScalarOp, args: seq<Scalar>)
    | Convert(conv: ConversionOp, to: ElemType, arg: Scalar)

  /** The float ops; every other op of the catalog works on integers. */
  predicate IsFloatOp(op: ScalarOp) {
    op in {MathTanh, MathExp, MathSqrt, MathCeil, MathFloor, MathRound, MathRoundEven, MathSin, MathCos,
           MathAbsF, MathLog, MathAtan, MathAtan2, ArithMaximumF, ArithMinimumF, ArithNegF, ArithAddF,
           ArithSubF, ArithMulF, ArithDivF, ArithCmpFUne}
  }

  /** Every op of the tree works on the kind of element type given (float or integer). */
  predicate OpsOfKind(e: Scalar, float: bool) {
    match e
    case Apply(op, args) => IsFloatOp(op) == float && forall k :: 0 <= k < |args| ==> OpsOfKind(args[k], float)
    case Convert(_, _, a) => OpsOfKind(a, float)
    case _ => true
  }

  // ---------------------------------------------------------------------------
  // clamp

  /** `x` bounded by `op` with the bound if there is one, else `x` itself. */
  function Bounded(x: Scalar, op: ScalarOp, bound: Option<Scalar>): Scalar {
    if bound.Some? then Apply(op, [x, bound.value]) else x
  }

  function F32Const(f: Option<real>): Option<Scalar> {
    if f.Some? then Some(FloatConst(f.value, Float(32, false))) else None
  }

  function I64Const(i: Option<int>): Option<Scalar> {
    if i.Some? then Some(IntConst(i.value, Int(64, Signless))) else None
  }

  /**
    tcp.clamp: the max with the lower bound first, then the min with the upper
    bound, each only when that bound is given; f32 constants with MaximumF and
    MinimumF for floats, i64 constants with MaxSI and MinSI for integers.
  */
  function ClampPayload(elem: ElemType, minFloat: Option<real>, maxFloat: Option<real>,
                        minInt: Option<int>, maxInt: Option<int>): Scalar
    requires IsIntOrFloat(elem)
  {
    if elem.Float? then
      Bounded(Bounded(BlockArg(0), ArithMaximumF, F32Const(minFloat)), ArithMinimumF, F32Const(maxFloat))
    else
      Bounded(Bounded(BlockArg(0), ArithMaxSI, I64Const(minInt)), ArithMinSI, I64Const(maxInt))
  }

  // ---------------------------------------------------------------------------
  // cast

  predicate IsI1(t: ElemType) {
    t.Int? && t.width == 1
  }

  /** Equal bit widths and matching signedness annotations: the cast changes nothing. */
  predicate CastIsIdentity(inType: ElemType, outType: ElemType, inSign: Option<Signedness>, outSign: Option<Signedness>)
    requires IsIntOrFloat(inType) && IsIntOrFloat(outType)
  {
    BitWidth(inType) == BitWidth(outType) &&
    ((inSign.None? && outSign.None?) || (inSign.Some? && outSign.Some? && inSign.value == outSign.value))
  }

  /**
    What the cast lowering needs: integer or float types on both sides (it reads
    their bit widths), and the signedness it dereferences on the way: the input's
    for an integer-to-float cast and an integer extension, the output's for a
    float-to-integer cast.
  */
  predicate CastSupported(inType: ElemType, outType: ElemType, inSign: Option<Signedness>, outSign: Option<Signedness>) {
    IsIntOrFloat(inType) && IsIntOrFloat(outType) &&
    (CastIsIdentity(inType, outType, inSign, outSign) || IsI1(outType) ||
     ((outType.Float? && inType.Int? ==> inSign.Some?) &&
      (outType.Int? && inType.Float? ==> outSign.Some?) &&
      (outType.Int? && inType.Int? && inType.width <= outType.width ==> inSign.Some?)))
  }

  /** The conversion from an integer of the given signedness to a float: only Signed is signed. */
  function IntToFloat(inSign: Signedness): ConversionOp {
    if inSign == Signed then ArithSIToFP else ArithUIToFP
  }

  function FloatToInt(outSign: Signedness): ConversionOp {
    if outSign == Signed then ArithFPToSI else ArithFPToUI
  }

  function IntExtension(inSign: Signedness): ConversionOp {
    if inSign == Signed then ArithExtSI else ArithExtUI
  }

  /** An integer-to-integer cast between equal widths: on signless bits, a change of signedness only. */
  predicate ReinterpretsBits(inType: ElemType, outType: ElemType) {
    inType.Int? && outType.Int? && inType.width == outType.width
  }

  /**
    The integer-to-integer lowering as written: a truncation when narrowing, and
    otherwise an extension by the input's signedness, even between equal widths.
  */
  function IntToIntAsWritten(inType: ElemType, outType: ElemType, inSign: Signedness): Scalar
    requires inType.Int? && outType.Int?
  {
    if inType.width > outType.width then Convert(ArithTruncI, outType, BlockArg(0))
    else Convert(IntExtension(inSign), outType, BlockArg(0))
  }

  /**
    The integer-to-integer lowering with equal widths kept as the argument
    itself: a truncation when narrowing, an extension by the input's signedness
    when widening.
  */
  function IntToInt(inType: ElemType, outType: ElemType, inSign: Option<Signedness>): Scalar
    requires inType.Int? && outType.Int? && (inType.width <= outType.width ==> inSign.Some?)
  {
    if ReinterpretsBits(inType, outType) then BlockArg(0)
    else if inType.width > outType.width then Convert(ArithTruncI, outType, BlockArg(0))
    else Convert(IntExtension(inSign.value), outType, BlockArg(0))
  }

  /**
    The IEEE float a layout-changing cast passes through: f32, which holds f16
    and bf16 exactly. Only widths below 32 have two layouts; the doubling keeps
    the definition total.
  */
  function LayoutBridge(t: ElemType): ElemType
    requires t.Float?
  {
    Float(if t.width < 32 then 32 else 2 * t.width, false)
  }

  /**
    tcp.cast from `inType` to `outType` on the payload's single argument, with
    the two corrections of Findings: an equal-width integer cast keeps the bits,
    and an equal-width float cast that changes layout goes through f32.
  */
  function CastPayload(inType: ElemType, outType: ElemType, inSign: Option<Signedness>, outSign: Option<Signedness>): Scalar
    requires CastSupported(inType, outType, inSign, outSign)
  {
    var x := BlockArg(0);
    if CastIsIdentity(inType, outType, inSign, outSign) then
      if FloatLayoutChanges(inType, outType) then Convert(ArithTruncF, outType, Convert(ArithExtF, LayoutBridge(inType), x))
      else x
    else if IsI1(outType) then
      Apply(if inType.Float? then ArithCmpFUne else ArithCmpINe, [x, ZeroOf(inType)])
    else if outType.Float? then
      if inType.Float? then Convert(if inType.width > outType.width then ArithTruncF else ArithExtF, outType, x)
      else Convert(IntToFloat(inSign.value), outType, x)
    else if inType.Float? then Convert(FloatToInt(outSign.value), outType, x)
    else IntToInt(inType, outType, inSign)
  }

  /**
    A cast returns its argument exactly when its widths and signedness
    annotations match and it keeps the float layout, or when it is an
    equal-width integer cast to anything but i1.
  */
  lemma CastIdentityIff(inType: ElemType, outType: ElemType, inSign: Option<Signedness>, outSign: Option<Signedness>)
    requires CastSupported(inType, outType, inSign, outSign)
    ensures CastPayload(inType, outType, inSign, outSign) == BlockArg(0) <==>
      (CastIsIdentity(inType, outType, inSign, outSign) && !FloatLayoutChanges(inType, outType)) ||
      (ReinterpretsBits(inType, outType) && !IsI1(outType))
  {
  }

  /** A real cast to i1 compares the argument with a zero of the input type, as floats when the input is a float. */
  lemma CastToBoolComparesWithZero(inType: ElemType, outType: ElemType, inSign: Option<Signedness>, outSign: Option<Signedness>)
    requires CastSupported(inType, outType, inSign, outSign)
    requires IsI1(outType) && !CastIsIdentity(inType, outType, inSign, outSign)
    ensures var p := CastPayload(inType, outType, inSign, outSign);
      p.Apply? && p.args == [BlockArg(0), ZeroOf(inType)] && (p.op == ArithCmpFUne <==> inType.Float?) &&
      (p.op == ArithCmpINe <==> inType.Int?)
  {
  }

  /** The signed variant of a conversion. */
  predicate IsSignedConversion(c: ConversionOp) {
    c in {ArithSIToFP, ArithFPToSI, ArithExtSI}
  }

  /**
    Every other cast is one conversion to the output type. It narrows exactly when
    the output is narrower, and it is a signed conversion exactly when the
    integer side it reads (the input, or the output for float-to-integer) is
    Signed; Signless counts as unsigned.
  */
  lemma CastConversion(inType: ElemType, outType: ElemType, inSign: Option<Signedness>, outSign: Option<Signedness>)
    requires CastSupported(inType, outType, inSign, outSign)
    requires !IsI1(outType) && !CastIsIdentity(inType, outType, inSign, outSign) && !ReinterpretsBits(inType, outType)
    ensures var p := CastPayload(inType, outType, inSign, outSign);
      p.Convert? && p.to == outType && p.arg == BlockArg(0) &&
      ((p.conv == ArithTruncF || p.conv == ArithTruncI) <==> inType.Float? == outType.Float? && inType.width > outType.width) &&
      (inType.Float? && outType.Float? ==> p.conv in {ArithTruncF, ArithExtF}) &&
      (inType.Int? && outType.Int? ==> p.conv in {ArithTruncI, ArithExtUI, ArithExtSI}) &&
      (inType.Int? && outType.Float? ==> p.conv in {ArithUIToFP, ArithSIToFP}) &&
      (inType.Float? && outType.Int? ==> p.conv in {ArithFPToUI, ArithFPToSI}) &&
      (IsSignedConversion(p.conv) <==>
        if inType.Float? then outType.Int? && outSign == Some(Signed) else inSign == Some(Signed) && (outType.Float? || inType.width <= outType.width))
  {
  }

  /** Two element types that are the same signless type: same kind, same width and, for floats, same layout. */
  predicate SameScalarType(a: ElemType, b: ElemType) {
    IsIntOrFloat(a) && IsIntOrFloat(b) && a.Float? == b.Float? && a.width == b.width && (a.Float? ==> a.bfloat == b.bfloat)
  }

  /**
    The operand and result types an arith conversion accepts: truncations to a
    strictly narrower and extensions to a strictly wider type of the same kind,
    and int/float conversions across kinds.
  */
  predicate ConversionTyped(conv: ConversionOp, from: ElemType, to: ElemType) {
    match conv
    case ArithTruncF => from.Float? && to.Float? && to.width < from.width
    case ArithExtF => from.Float? && to.Float? && to.width > from.width
    case ArithTruncI => from.Int? && to.Int? && to.width < from.width
    case ArithExtUI => from.Int? && to.Int? && to.width > from.width
    case ArithExtSI => from.Int? && to.Int? && to.width > from.width
    case ArithUIToFP => from.Int? && to.Float?
    case ArithSIToFP => from.Int? && to.Float?
    case ArithFPToUI => from.Float? && to.Int?
    case ArithFPToSI => from.Float? && to.Int?
  }

  /**
    A cast payload is the argument of an equal type, a comparison yielding i1,
    one accepted conversion, or a float extension followed by a truncation
    through a wider float.
  */
  predicate CastWellTyped(p: Scalar, inType: ElemType, outType: ElemType) {
    (p == BlockArg(0) && SameScalarType(inType, outType)) ||
    (p.Apply? && (p.op == ArithCmpFUne || p.op == ArithCmpINe) && IsI1(outType)) ||
    (p.Convert? && p.arg == BlockArg(0) && p.to == outType && ConversionTyped(p.conv, inType, outType)) ||
    (p.Convert? && p.conv == ArithTruncF && p.to == outType && p.arg.Convert? && p.arg.conv == ArithExtF &&
     p.arg.arg == BlockArg(0) && ConversionTyped(ArithExtF, inType, p.arg.to) && ConversionTyped(ArithTruncF, p.arg.to, outType))
  }

  /** The usual annotation of a cast: a signedness on each integer side and none on a float side. */
  predicate SignednessOnIntegerSides(inType: ElemType, outType: ElemType, inSign: Option<Signedness>, outSign: Option<Signedness>) {
    (inSign.Some? <==> inType.Int?) && (outSign.Some? <==> outType.Int?)
  }

  /** With the usual annotation every cast lowering is well typed. */
  lemma CastPayloadWellTyped(inType: ElemType, outType: ElemType, inSign: Option<Signedness>, outSign: Option<Signedness>)
    requires CastSupported(inType, outType, inSign, outSign)
    requires SignednessOnIntegerSides(inType, outType, inSign, outSign)
    ensures CastWellTyped(CastPayload(inType, outType, inSign, outSign), inType, outType)
  {
  }

  /**
    As written, the integer cast from si8 to ui8, which torch's `to(torch.uint8)`
    on an int8 tensor produces, lowers to an `arith.extsi` from i8 to i8: an
    extension that does not widen, which arith does not accept.
  */
  lemma EqualWidthIntCastAsWritten()
    ensures var p := IntToIntAsWritten(Int(8, Signed), Int(8, Unsigned), Signed);
      p == Convert(ArithExtSI, Int(8, Unsigned), BlockArg(0)) &&
      !CastWellTyped(p, Int(8, Signed), Int(8, Unsigned)) &&
      !CastIsIdentity(Int(8, Signed), Int(8, Unsigned), Some(Signed), Some(Unsigned))
  {
  }

  /**
    As written, the identity test compares only bit widths and signedness
    annotations, so a float16 to bfloat16 cast (`to(torch.bfloat16)` on a half
    tensor, whose `tcp.cast` carries no signedness) yields the f16 argument itself
    into a bf16 result.
  */
  lemma SameWidthFloatCastAsWritten()
    ensures CastIsIdentity(Float(16, false), Float(16, true), None, None)
    ensures !CastWellTyped(BlockArg(0), Float(16, false), Float(16, true))
  {
  }

  /** Corrected: a 16-bit float cast that changes layout extends to f32 and truncates to the result type. */
  lemma LayoutChangeLowersThroughF32(inType: ElemType, outType: ElemType)
    requires inType.Float? && inType.width == 16 && FloatLayoutChanges(inType, outType)
    ensures CastPayload(inType, outType, None, None) == Convert(ArithTruncF, outType, Convert(ArithExtF, Float(32, false), BlockArg(0)))
    ensures CastWellTyped(CastPayload(inType, outType, None, None), inType, outType)
  {
  }

  // ---------------------------------------------------------------------------
  // the payload

  /** The element types each op's lowering handles; any other is unreachable in the lowering. */
  predicate PayloadSupported(op: TcpOp, elem: ElemType, castInput: ElemType) {
    match op
    case ClampOp(_, _, _, _) => IsIntOrFloat(elem)
    case AbsOp => IsIntOrFloat(elem)
    case AddOp => IsIntOrFloat(elem)
    case SubOp => IsIntOrFloat(elem)
    case MulOp => IsIntOrFloat(elem)
    case DivFOp => elem.Float?
    case Atan2Op => elem.Float?
    case DivSIOp(_) => elem.Int?
    case DivUIOp(_) => elem.Int?
    case CastOp(inSign, outSign) => CastSupported(castInput, elem, inSign, outSign)
    case _ => true
  }

  /** The float op for a float element type, the integer op otherwise. */
  function ByKind(elem: ElemType, floatOp: ScalarOp, intOp: ScalarOp, args: seq<Scalar>): Scalar {
    Apply(if elem.Float? then floatOp else intOp, args)
  }

  /**
    createLinalgPayloadForElementwiseOp: the scalar computation of one result
    element from the block arguments, for result element type `elem`; a cast
    also reads the element type of its input. An op the lowering does not list
    is an error.
  */
  function Payload(op: TcpOp, elem: ElemType, castInput: ElemType): (r: Result<Scalar>)
    requires PayloadSupported(op, elem, castInput)
    ensures r.Failure? <==> op.UnlistedOp?
    ensures r.Failure? ==> r.error == UnimplementedLowering
  {
    var x, y := BlockArg(0), BlockArg(1);
    match op
    case TanhOp => Success(Apply(MathTanh, [x]))
    case ClampOp(minF, maxF, minI, maxI) => Success(ClampPayload(elem, minF, maxF, minI, maxI))
    case SigmoidOp =>
      var one := FloatConst(1.0, elem);
      Success(Apply(ArithDivF, [one, Apply(ArithAddF, [Apply(MathExp, [Apply(ArithNegF, [x])]), one])]))
    case SqrtOp => Success(Apply(MathSqrt, [x]))
    case CeilOp => Success(Apply(MathCeil, [x]))
    case FloorOp => Success(Apply(MathFloor, [x]))
    case RoundOp => Success(Apply(MathRound, [x]))
    case RoundEvenOp => Success(Apply(MathRoundEven, [x]))
    case SinOp => Success(Apply(MathSin, [x]))
    case CosOp => Success(Apply(MathCos, [x]))
    case AbsOp => Success(ByKind(elem, MathAbsF, MathAbsI, [x]))
    case LogOp => Success(Apply(MathLog, [x]))
    case NegOp => Success(Apply(ArithNegF, [x]))
    case AtanOp => Success(Apply(MathAtan, [x]))
    case AddOp => Success(ByKind(elem, ArithAddF, ArithAddI, [x, y]))
    case SubOp => Success(ByKind(elem, ArithSubF, ArithSubI, [x, y]))
    case MulOp => Success(ByKind(elem, ArithMulF, ArithMulI, [x, y]))
    case DivFOp => Success(Apply(ArithDivF, [x, y]))
    case DivSIOp(mode) =>
      Success(Apply(if mode == Trunc then ArithDivSI else if mode == Ceil then ArithCeilDivSI else ArithFloorDivSI, [x, y]))
    case DivUIOp(mode) =>
      Success(Apply(if mode == Trunc || mode == Floor then ArithDivUI else ArithCeilDivUI, [x, y]))
    case Atan2Op => Success(Apply(MathAtan2, [x, y]))
    case CastOp(inSign, outSign) => Success(CastPayload(castInput, elem, inSign, outSign))
    case UnlistedOp(_) => Failure(UnimplementedLowering)
  }

  /** The ops whose lowering is a float math op with no integer variant. */
  predicate IsMathOnFloats(op: TcpOp) {
    op.TanhOp? || op.SigmoidOp? || op.SqrtOp? || op.CeilOp? || op.FloorOp? || op.RoundOp? ||
    op.RoundEvenOp? || op.SinOp? || op.CosOp? || op.LogOp? || op.AtanOp?
  }

  /**
    Apart from neg, whose lowering is a float negation whatever the element type,
    and cast, which changes kind, every payload uses float ops on float elements
    and integer ops on integer elements.
  */
  lemma PayloadOpsMatchElementKind(op: TcpOp, elem: ElemType, castInput: ElemType)
    requires PayloadSupported(op, elem, castInput) && !op.UnlistedOp? && !op.NegOp? && !op.CastOp?
    requires IsIntOrFloat(elem)
    requires IsMathOnFloats(op) ==> elem.Float?
    ensures OpsOfKind(Payload(op, elem, castInput).value, elem.Float?)
  {
    var p := Payload(op, elem, castInput).value;
    if op.ClampOp? {
      var inner := if elem.Float? then Bounded(BlockArg(0), ArithMaximumF, F32Const(op.minFloat))
                   else Bounded(BlockArg(0), ArithMaxSI, I64Const(op.minInt));
      assert OpsOfKind(inner, elem.Float?);
    } else if op.SigmoidOp? {
      var one := FloatConst(1.0, elem);
      var neg := Apply(ArithNegF, [BlockArg(0)]);
      var ex := Apply(MathExp, [neg]);
      var sum := Apply(ArithAddF, [ex, one]);
      assert OpsOfKind(neg, true) && OpsOfKind(ex, true) && OpsOfKind(sum, true);
    }
  }

  /** Neg lowers to a float negation even on integer elements. */
  lemma NegIsAlwaysFloatNegation(elem: ElemType, castInput: ElemType)
    ensures Payload(NegOp, elem, castInput).value == Apply(ArithNegF, [BlockArg(0)])
    ensures elem.Int? ==> !OpsOfKind(Payload(NegOp, elem, castInput).value, false)
  {
  }

  /** The rounding a signed division payload performs, op for op. */
  lemma DivSIModes(elem: ElemType, castInput: ElemType, mode: RoundingMode)
    requires elem.Int?
    ensures var p := Payload(DivSIOp(mode), elem, castInput).value;
      p.Apply? && p.args == [BlockArg(0), BlockArg(1)] &&
      (p.op == ArithDivSI <==> mode == Trunc) && (p.op == ArithCeilDivSI <==> mode == Ceil) &&
      (p.op == ArithFloorDivSI <==> mode == Floor)
  {
  }

  /** Unsigned division: trunc and floor share `arith.divui`, ceil has its own op. */
  lemma DivUIModes(elem: ElemType, castInput: ElemType, mode: RoundingMode)
    requires elem.Int?
    ensures var p := Payload(DivUIOp(mode), elem, castInput).value;
      p.Apply? && p.args == [BlockArg(0), BlockArg(1)] &&
      (p.op == ArithDivUI <==> mode != Ceil) && (p.op == ArithCeilDivUI <==> mode == Ceil)
  {
  }

  // ---------------------------------------------------------------------------
  // the generic op

  /** An affine map from `numDims` loop dimensions to the listed result dimensions. */
  datatype AffineMap = AffineMap(numDims: nat, results: seq<nat>)

  function IdentityMap(rank: nat): (m: AffineMap)
    ensures m.numDims == rank && |m.results| == rank
    ensures forall i :: 0 <= i < rank ==> m.results[i] == i
  {
    AffineMap(rank, seq(rank, i requires 0 <= i < rank => i))
  }

  /** The position a map gives an operand element for the loop index `idx`. */
  function ApplyMap(m: AffineMap, idx: seq<int>): (r: seq<int>)
    requires |idx| == m.numDims && forall k :: 0 <= k < |m.results| ==> m.results[k] < m.numDims
    ensures |r| == |m.results|
  {
    seq(|m.results|, k requires 0 <= k < |m.results| => idx[m.results[k]])
  }

  datatype IteratorType = Parallel | Reduction

  /** A value of the converted program seen by the lowering: ranked tensor or not, and its static or dynamic shape. */
  datatype OperandValue = OperandValue(id: nat, ranked: bool, shape: seq<Dim>, elem: ElemType)

  /** One size of `tensor.getMixedSizes`: a static size, or the `tensor.dim` of a dimension of a value. */
  datatype OpFoldResult = StaticSize(n: nat) | DimOf(value: nat, dim: nat)

  function MixedSizes(v: OperandValue): (s: seq<OpFoldResult>)
    ensures |s| == |v.shape|
  {
    seq(|v.shape|, i requires 0 <= i < |v.shape| =>
      if v.shape[i].Static? then StaticSize(v.shape[i].size) else DimOf(v.id, i))
  }

  datatype EmptyTensor = EmptyTensor(sizes: seq<OpFoldResult>, elem: ElemType)

  /** linalg.generic: inputs, the empty output tensor, one indexing map per input and for the output, iterators, body. */
  datatype GenericOp = GenericOp(inputs: seq<OperandValue>, init: EmptyTensor, maps: seq<AffineMap>,
                                 iterators: seq<IteratorType>, body: Scalar)

  /**
    createElementwiseLinalgGeneric: an identity map for every tensor operand and
    for the result, a parallel iterator per result dimension, and an empty output
    whose sizes are those of the first tensor operand.
  */
  function CreateElementwiseLinalgGeneric(tensorOperands: seq<OperandValue>, resultRank: nat, resultElem: ElemType,
                                          body: Scalar): (g: GenericOp)
    requires |tensorOperands| > 0
    ensures g.inputs == tensorOperands && g.body == body
    ensures |g.maps| == |tensorOperands| + 1 && forall k :: 0 <= k < |g.maps| ==> g.maps[k] == IdentityMap(resultRank)
    ensures |g.iterators| == resultRank && forall k :: 0 <= k < resultRank ==> g.iterators[k] == Parallel
    ensures g.init.elem == resultElem && |g.init.sizes| == |tensorOperands[0].shape|
    ensures forall i :: 0 <= i < |tensorOperands[0].shape| ==>
      g.init.sizes[i] == if tensorOperands[0].shape[i].Static? then StaticSize(tensorOperands[0].shape[i].size)
                         else DimOf(tensorOperands[0].id, i)
  {
    GenericOp(tensorOperands, EmptyTensor(MixedSizes(tensorOperands[0]), resultElem),
              seq(|tensorOperands| + 1, _ => IdentityMap(resultRank)),
              seq(resultRank, _ => Parallel), body)
  }

  /**
    The generic op is elementwise: at every loop index each input and the output
    are accessed at that same index, and no dimension is a reduction.
  */
  lemma {:induction false} GenericIsElementwise(tensorOperands: seq<OperandValue>, resultRank: nat, resultElem: ElemType,
                                                body: Scalar, k: nat, idx: seq<int>)
    requires |tensorOperands| > 0 && k <= |tensorOperands| && |idx| == resultRank
    ensures var g := CreateElementwiseLinalgGeneric(tensorOperands, resultRank, resultElem, body);
      ApplyMap(g.maps[k], idx) == idx && Reduction !in g.iterators
  {
    var g := CreateElementwiseLinalgGeneric(tensorOperands, resultRank, resultElem, body);
    var r := ApplyMap(g.maps[k], idx);
    assert forall i :: 0 <= i < resultRank ==> r[i] == idx[i];
    assert forall i :: 0 <= i < resultRank ==> g.iterators[i] != Reduction;
  }

  /** The operands kept for the generic op: those of ranked tensor type, in their order. */
  function RankedOperands(vs: seq<OperandValue>): (r: seq<OperandValue>)
    ensures |r| <= |vs|
    ensures forall v :: v in r <==> v in vs && v.ranked
  {
    if vs == [] then []
    else (if vs[0].ranked then [vs[0]] else []) + RankedOperands(vs[1..])
  }

  /** An operand list that is all ranked tensors passes the filter unchanged. */
  lemma {:induction false} RankedOperandsOfAllRanked(vs: seq<OperandValue>)
    requires forall k :: 0 <= k < |vs| ==> vs[k].ranked
    ensures RankedOperands(vs) == vs
  {
    if vs != [] {
      RankedOperandsOfAllRanked(vs[1..]);
    }
  }

  /**
    The filter keeps order and multiplicity: it distributes over concatenation.
    With `RankedOperandsOfOne` this fixes the result on every list, which
    matters because `BlockArg(i)` and the init's sizes read operands by position.
  */
  lemma {:induction false} RankedOperandsOfConcat(a: seq<OperandValue>, b: seq<OperandValue>)
    ensures RankedOperands(a + b) == RankedOperands(a) + RankedOperands(b)
    decreases |a|
  {
    if a == [] {
      assert a + b == b;
    } else {
      var head := if a[0].ranked then [a[0]] else [];
      assert (a + b)[0] == a[0];
      assert (a + b)[1..] == a[1..] + b;
      calc {
        RankedOperands(a + b);
        head + RankedOperands(a[1..] + b);
        { RankedOperandsOfConcat(a[1..], b); }
        head + (RankedOperands(a[1..]) + RankedOperands(b));
        (head + RankedOperands(a[1..])) + RankedOperands(b);
        RankedOperands(a) + RankedOperands(b);
      }
    }
  }

  /** On a single operand the filter keeps it exactly when it is ranked. */
  lemma RankedOperandsOfOne(v: OperandValue)
    ensures RankedOperands([v]) == (if v.ranked then [v] else [])
  {
    assert [v][1..] == [];
  }

  /**
    ConvertElementwiseOp::matchAndRewrite for one of the listed TCP ops: the
    generic op over the ranked operands with the payload as its body.
    `operands` are the matched op's (already converted) operands; a cast's input
    element type is that of its first operand.
  */
  function ConvertElementwiseOp(op: TcpOp, operands: seq<OperandValue>, resultRank: nat, resultElem: ElemType): (g: GenericOp)
    requires !op.UnlistedOp?
    requires |RankedOperands(operands)| > 0
    requires PayloadSupported(op, resultElem, operands[0].elem)
    ensures g.inputs == RankedOperands(operands) && |g.maps| == |g.inputs| + 1
    ensures Success(g.body) == Payload(op, resultElem, operands[0].elem)
    ensures g.init.elem == resultElem && |g.iterators| == resultRank
  {
    CreateElementwiseLinalgGeneric(RankedOperands(operands), resultRank, resultElem,
                                   Payload(op, resultElem, operands[0].elem).value)
  }
}
