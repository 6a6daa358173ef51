/**
  The integer payloads on mathematical integers: what a scalar op tree
  computes from integer block arguments, with the arith dialect's integer ops
  read as exact arithmetic (no bit width, no wrap-around). Float ops and
  conversions have no value here.
*/
module PayloadSemantics {
  import opened Wrappers
  import opened TcpOps
  import opened IntegerDivision
  import opened TcpToLinalgElementwise

  function Max(a: int, b: int): int {
    if a >= b then a else b
  }

  function Min(a: int, b: int): int {
    if a <= b then a else b
  }

  function Abs(a: int): int {
    if a >= 0 then a else -a
  }

  /** The integer `op` applied to `x` and `y`; divisions by zero, and unsigned ops off the naturals, have no value. */
  function EvalBinary(op: ScalarOp, x: int, y: int): Option<int> {
    match op
    case ArithAddI => Some(x + y)
    case ArithSubI => Some(x - y)
    case ArithMulI => Some(x * y)
    case ArithMaxSI => Some(Max(x, y))
    case ArithMinSI => Some(Min(x, y))
    case ArithDivSI => if y != 0 then Some(TruncDiv(x, y)) else None
    case ArithCeilDivSI => if y != 0 then Some(CeilDiv(x, y)) else None
    case ArithFloorDivSI => if y != 0 then Some(FloorDiv(x, y)) else None
    case ArithDivUI => if x >= 0 && y > 0 then Some(FloorDiv(x, y)) else None
    case ArithCeilDivUI => if x >= 0 && y > 0 then Some(CeilDiv(x, y)) else None
    case _ => None
  }

  /** The value of an integer op tree for integer block arguments `args`. */
  function EvalInt(e: Scalar, args: seq<int>): Option<int>
    decreases e
  {
    match e
    case BlockArg(i) => if i < |args| then Some(args[i]) else None
    case IntConst(v, _) => Some(v)
    case Apply(op, a) =>
      if op == MathAbsI && |a| == 1 then
        var x := EvalInt(a[0], args);
        if x.Some? then Some(Abs(x.value)) else None
      else if |a| == 2 then
        var x, y := EvalInt(a[0], args), EvalInt(a[1], args);
        if x.Some? && y.Some? then EvalBinary(op, x.value, y.value) else None
      else None
    case _ => None
  }

  /** On integers add, sub and mul compute the sum, the difference and the product. */
  lemma IntegerAdd(width: nat, sign: Signedness, c: ElemType, x: int, y: int)
    ensures EvalInt(Payload(AddOp, Int(width, sign), c).value, [x, y]) == Some(x + y)
  {
  }

  lemma IntegerSub(width: nat, sign: Signedness, c: ElemType, x: int, y: int)
    ensures EvalInt(Payload(SubOp, Int(width, sign), c).value, [x, y]) == Some(x - y)
  {
  }

  lemma IntegerMul(width: nat, sign: Signedness, c: ElemType, x: int, y: int)
    ensures EvalInt(Payload(MulOp, Int(width, sign), c).value, [x, y]) == Some(x * y)
  {
  }

  /** On integers abs computes the absolute value. */
  lemma IntegerAbs(width: nat, sign: Signedness, c: ElemType, x: int)
    ensures EvalInt(Payload(AbsOp, Int(width, sign), c).value, [x]) == Some(if x < 0 then -x else x)
  {
  }

  /**
    Integer clamp is `min(max(x, lo), hi)`, dropping the side whose bound is
    absent; with `lo <= hi` it lands in `[lo, hi]` and leaves a value already
    there unchanged.
  */
  lemma IntegerClamp(width: nat, sign: Signedness, c: ElemType, minF: Option<real>, maxF: Option<real>,
                     lo: Option<int>, hi: Option<int>, x: int)
    ensures var r := EvalInt(Payload(ClampOp(minF, maxF, lo, hi), Int(width, sign), c).value, [x]);
      r.Some? &&
      (lo.Some? && hi.Some? ==> r.value == Min(Max(x, lo.value), hi.value)) &&
      (lo.Some? && hi.None? ==> r.value == Max(x, lo.value)) &&
      (lo.None? && hi.Some? ==> r.value == Min(x, hi.value)) &&
      (lo.None? && hi.None? ==> r.value == x) &&
      (lo.Some? ==> hi.Some? ==> lo.value <= hi.value ==> lo.value <= r.value <= hi.value) &&
      ((lo.None? || lo.value <= x) && (hi.None? || x <= hi.value) ==> r.value == x)
  {
    var elem := Int(width, sign);
    var inner := Bounded(BlockArg(0), ArithMaxSI, I64Const(lo));
    var innerValue := if lo.Some? then Max(x, lo.value) else x;
    assert EvalInt(inner, [x]) == Some(innerValue);
    assert Payload(ClampOp(minF, maxF, lo, hi), elem, c).value == Bounded(inner, ArithMinSI, I64Const(hi));
  }

  /** Signed division rounds the exact quotient as its rounding mode says, for each of the three modes. */
  lemma SignedDivisionRounds(width: nat, sign: Signedness, c: ElemType, mode: RoundingMode, x: int, y: int)
    requires y != 0
    ensures EvalInt(Payload(DivSIOp(mode), Int(width, sign), c).value, [x, y]) == Some(Rounded(mode, x as real / y as real))
  {
    match mode
    case Trunc => TruncDivIsTrunc(x, y);
    case Ceil => CeilDivIsCeil(x, y);
    case Floor => FloorDivIsFloor(x, y);
  }

  /**
    Unsigned division on naturals rounds the exact quotient as its rounding mode
    says; trunc and floor share `arith.divui` because the two agree there.
  */
  lemma UnsignedDivisionRounds(width: nat, sign: Signedness, c: ElemType, mode: RoundingMode, x: int, y: int)
    requires x >= 0 && y > 0
    ensures EvalInt(Payload(DivUIOp(mode), Int(width, sign), c).value, [x, y]) == Some(Rounded(mode, x as real / y as real))
  {
    match mode
    case Trunc =>
      FloorDivIsFloor(x, y);
      FloorIsTruncOnNaturals(x, y);
    case Ceil => CeilDivIsCeil(x, y);
    case Floor => FloorDivIsFloor(x, y);
  }
}
