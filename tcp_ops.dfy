/**
  The vocabulary shared by both conversions: element types, tensor operands as a
  pattern sees them, compile-time constant arguments, and the catalog of TCP
  primitive ops with their attributes.
*/
module TcpOps {
  import opened Wrappers

  datatype Signedness = Signless | Signed | Unsigned

  /**
    A float of a bit width and layout (`bfloat` marks the brain-float layout of
    bf16, which shares its width with f16), an integer of a bit width and
    signedness, or any other type (index, complex, ...).
  */
  datatype ElemType = Float(width: nat, bfloat: bool) | Int(width: nat, sign: Signedness) | Other

  /** A float cast that keeps the width but changes the layout, such as f16 to bf16. */
  predicate FloatLayoutChanges(a: ElemType, b: ElemType) {
    a.Float? && b.Float? && a.width == b.width && a.bfloat != b.bfloat
  }

  predicate IsIntOrFloat(t: ElemType) {
    t.Float? || t.Int?
  }

  /** `getIntOrFloatBitWidth`, defined on integer and float types only. */
  function BitWidth(t: ElemType): nat
    requires IsIntOrFloat(t)
  {
    t.width
  }

  datatype Dim = Static(size: nat) | Dynamic

  predicate IsStatic(shape: seq<Dim>) {
    forall i :: 0 <= i < |shape| ==> shape[i].Static?
  }

  /** `getNumElements`: the product of the dimension sizes, defined for static shapes only. */
  function NumElements(shape: seq<Dim>): nat
    requires IsStatic(shape)
  {
    if shape == [] then 1 else shape[0].size * NumElements(shape[1..])
  }

  /**
    A tensor operand: whether its converted type is a ranked tensor, its shape,
    its element type after type conversion and the source framework's dtype.
  */
  datatype TensorArg = TensorArg(ranked: bool, shape: seq<Dim>, elem: ElemType, dtype: ElemType)

  /**
    A source-framework argument as the constant matcher sees it: a constant float,
    int or bool, the `None` value, or a value that is not a recognised constant.
  */
  datatype ConstArg = ConstFloat(f: real) | ConstInt(i: int) | ConstBool(b: bool) | NoneArg | NonConst

  /** Integer rounding mode of TCP's integer divisions. */
  datatype RoundingMode = Trunc | Ceil | Floor

  /**
    The TCP primitive ops the two elementwise conversions produce and consume.
    Clamp carries its optional float and integer bounds; a cast carries the
    optional signedness of each side. `UnlistedOp` stands for every other TCP op.
  */
  datatype TcpOp =
    | AddOp | SubOp | MulOp | DivFOp
    | DivSIOp(mode: RoundingMode) | DivUIOp(mode: RoundingMode)
    | ClampOp(minFloat: Option<real>, maxFloat: Option<real>, minInt: Option<int>, maxInt: Option<int>)
    | SigmoidOp | TanhOp | SqrtOp | CeilOp | FloorOp | RoundOp | RoundEvenOp
    | SinOp | CosOp | AbsOp | LogOp | NegOp | AtanOp | Atan2Op
    | CastOp(inIntSignedness: Option<Signedness>, outIntSignedness: Option<Signedness>)
    | UnlistedOp(name: string)
}
