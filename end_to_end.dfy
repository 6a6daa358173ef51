/**
  Lemmas across the two conversions: what a Torch-to-TCP pattern selects is an
  op the TCP-to-Linalg lowering handles, and the lowered payload computes what
  the selection promised.
*/
module EndToEnd {
  import opened Wrappers
  import opened TcpOps
  import opened IntegerDivision
  import opened TorchToTcpElementwise
  import opened TcpToLinalgElementwise
  import opened PayloadSemantics

  /**
    An integer division that the Torch-to-TCP dispatch accepts lowers to a
    payload computing the quotient truncated toward zero: on all integers with
    a nonzero divisor when signed, on naturals when unsigned.
  */
  lemma IntegerDivisionTruncates(lhsType: ElemType, rhsType: ElemType, outType: ElemType, elem: ElemType,
                                 castInput: ElemType, x: int, y: int)
    requires lhsType.Int? && rhsType.Int? && outType.Int? && elem.Int?
    requires DivDispatch(lhsType, rhsType, outType).Success?
    ensures var op := DivDispatch(lhsType, rhsType, outType).value;
      PayloadSupported(op, elem, castInput) &&
      (outType.sign == Signed && y != 0 ==>
        EvalInt(Payload(op, elem, castInput).value, [x, y]) == Some(Rounded(Trunc, x as real / y as real))) &&
      (outType.sign == Unsigned && x >= 0 && y > 0 ==>
        EvalInt(Payload(op, elem, castInput).value, [x, y]) == Some(Rounded(Trunc, x as real / y as real)))
  {
    var op := DivDispatch(lhsType, rhsType, outType).value;
    if outType.sign == Signed && y != 0 {
      SignedDivisionRounds(elem.width, elem.sign, castInput, Trunc, x, y);
    }
    if outType.sign == Unsigned && x >= 0 && y > 0 {
      UnsignedDivisionRounds(elem.width, elem.sign, castInput, Trunc, x, y);
    }
  }

  /**
    Every cast `to_dtype` emits is one the cast lowering handles, and its
    payload is well typed: the signedness `to_dtype` attaches is exactly what
    the lowering reads.
  */
  lemma ToDtypeCastLowersWellTyped(inDtype: ElemType, outDtype: ElemType)
    requires IsIntOrFloat(inDtype) && IsIntOrFloat(outDtype)
    ensures var op := ToDtypeCast(inDtype, outDtype).value;
      PayloadSupported(op, outDtype, inDtype) && CastWellTyped(Payload(op, outDtype, inDtype).value, inDtype, outDtype)
  {
    var op := ToDtypeCast(inDtype, outDtype).value;
    assert SignednessOnIntegerSides(inDtype, outDtype, op.inIntSignedness, op.outIntSignedness);
    CastPayloadWellTyped(inDtype, outDtype, op.inIntSignedness, op.outIntSignedness);
  }
}
