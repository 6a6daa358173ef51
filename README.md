# Torch → TCP → Linalg elementwise and custom-op conversions, in Dafny

This project models three conversion stages of the TCP compiler:

- **Torch→TCP elementwise patterns** (`lib/Conversion/TorchToTcp/Elementwise.cpp`).
  - The patterns cover `aten.add`/`aten.sub`, `mul`, `div`, `atan2`, `batch_norm`, `clamp`, `relu`, `sqrt`, `log1p`, the int-or-float and float-only unary ops, and `to.dtype`.
  - Each pattern either fails the match with its diagnostic or emits a straight-line sequence of TCP ops.
  - That sequence is modelled as a list of steps (`Emission`). Each pattern is proved to produce exactly the expected expression tree over its operands.
- **Torch→TCP custom-op patterns** (`lib/Conversion/TorchToTcp/TcpCustomOp.cpp`).
  - These patterns cover gather, `_index_put_impl`, convolution, the three fake-quantize ops, topk, sort, cumsum, min.dim, view, slice_scatter and arange.
  - Each one fills a `tcp.custom_op` conversion helper with named operands and attributes, then replaces the op.
  - The helper is a `class` (`CustomOpBuilder.Builder`) whose fields its methods update. It has a specification, `Packaged`, over the sequence of attribute requests.
  - The proofs cover which inputs make each pattern fail, the exact operands and attributes a success produces, and that operand and attribute names are unique.
- **TCP→Linalg elementwise lowering** (`lib/Conversion/TcpToLinalg/Elementwise.cpp`).
  - Every elementwise TCP op becomes a `linalg.generic`. The generic has identity indexing maps, parallel iterators and an init tensor that has the first operand's sizes.
  - Its body is a scalar payload built from `arith`/`math` ops.
  - Payloads are modelled as scalar expression trees. `PayloadSemantics` gives the integer payloads a meaning over mathematical integers, and `IntegerDivision` proves each rounding mode of the integer divisions correct.
  - `EndToEnd` connects two stages: a `div` chosen by the Torch→TCP stage lowers to a truncating division, and every cast that `to.dtype` emits lowers to a well-typed payload under the corrected cast lowering (the equal-width integer and float-layout casts of Findings).

## Modelling notes

- **Value identity.** SSA values are plain identifiers. Element types are `Float(width, bfloat)`, `Int(width, signedness)` or `Other`. The `bfloat` flag tells bf16 from f16. The source's identity test for casts compares only widths, so it does not tell them apart (see Findings).
- **Failures.** A match failure of a pattern is `Failure(diagnostic)` with the source's message text. Emitted ops are `Success(...)`. The custom-op helper's own failure message is not part of this model: a failure it reports carries the name of the attribute whose request was rejected.
- **`convertScalarOperandToTensor`.** The source's callers test its result for null, but it never returns null: for a scalar type that is neither int nor float it returns the uncast rank-0 tensor (`Elementwise.cpp:41-60`). The model follows the code, so the "Unsupported rhs/alpha data type" failures cannot occur.
- **Helper internals.** The internals of the custom-op helper are not part of this model. The model takes the following as given:
  - an attribute request whose argument is not a constant of the requested kind records a failure that `replace` reports;
  - later requests are still made after such a failure;
  - operands are appended in call order;
  - `addAsMultipleTensorOperands(prefix, vs)` names the operands `prefix` followed by the decimal index;
  - `tryConvertConstToFloatAttr` accepts an int or float constant, records it as a float attribute and reports whether it did.
- **`ConvertElementwiseOp` preconditions.** The source dereferences the payload's result without checking it, and reads `tensorOperands[0]`. These become the preconditions "the op is a listed TCP op" and "some operand is ranked".
- **Inputs on which the source crashes.** Each becomes a precondition, listed by member under "Left out":
  - the `llvm_unreachable` branches and the `.value()` reads of an absent signedness in the cast lowering (`CastSupported`, and with it `PayloadSupported`);
  - the asserting `cast<mlir::IntegerType>` in the division dispatch;
  - `getNumElements()` on a tensor type with a dynamic dimension, in batch norm and in the fake-quantize scale and zero-point checks;
  - `cast<ValueTensorType>(...).getSizes()` on a convolution input without sizes, in the 2-D convolution legality test (`TcpCustomOp.cpp:430-433`); `Is2dConv` takes the input's sizes, so an unranked input is not represented;
  - the undefined `static_cast<int64_t>` of a float clamp bound outside the 64-bit range, and clamp's `llvm_unreachable` for a bound that is not a numeric constant.
- **Producers.** In the view and cumsum models, `OtherList`, `OtherSize`, `OtherI64` and `OtherIndex` stand for a value defined by an op of another kind. A block argument has no defining op: the source then passes a null operation to `isa` (`TcpCustomOp.cpp:241`, `283-284`, `301`, `306`, `311`), which asserts. The model does not represent block arguments.

## Model

| member | source | states |
|---|---|---|
| TorchToTcpElementwise.ConvertScalarOperandToTensor | lib/Conversion/TorchToTcp/Elementwise.cpp:41-60 | a scalar becomes a rank-0 tensor; it is cast to the output dtype only when the scalar type is int or float, and the emitted sequence stays well formed, leaving every earlier value's meaning unchanged |
| TorchToTcpElementwise.IsMultiplyAlphaOne | lib/Conversion/TorchToTcp/Elementwise.cpp:31-39 | alpha counts as one iff it is the float constant 1.0 or the int constant 1; any other value, a constant or not, is multiplied in |
| TorchToTcpElementwise.StageRhs | lib/Conversion/TorchToTcp/Elementwise.cpp:90-102 | a scalar rhs is staged as a cast rank-0 tensor and a tensor rhs is cast from its dtype to the output dtype |
| TorchToTcpElementwise.CastAndBroadcast | lib/Conversion/TorchToTcp/Elementwise.cpp:90-106 | the lhs is cast, then lhs and rhs are broadcast to a common shape; the two results are slots 0 and 1 of one broadcast |
| TorchToTcpElementwise.ScaleByAlpha | lib/Conversion/TorchToTcp/Elementwise.cpp:108-117 | alpha is staged as a tensor, broadcast against the rhs and multiplied into it, and earlier values keep their meaning |
| TorchToTcpElementwise.ConvertAtenAddSub | lib/Conversion/TorchToTcp/Elementwise.cpp:63-122 | fails exactly on an unranked self; otherwise the result is `op(bcast(cast self), alpha == 1 ? bcast(rhs) : alpha * bcast(rhs))`, with the op count given |
| TorchToTcpElementwise.ConvertAtenMul | lib/Conversion/TorchToTcp/Elementwise.cpp:125-173 | fails exactly on an unranked self; otherwise `tcp.mul` of the broadcast, cast lhs and rhs |
| TorchToTcpElementwise.DivDispatch | lib/Conversion/TorchToTcp/Elementwise.cpp:324-346 | a float output gives `divf`; otherwise it succeeds iff lhs, rhs and output share one non-signless signedness, giving `divui` iff unsigned and `divsi` iff signed, both truncating |
| TorchToTcpElementwise.ConvertAtenDiv | lib/Conversion/TorchToTcp/Elementwise.cpp:276-349 | fails iff self is unranked or the dispatch fails; otherwise the dispatched division of the broadcast, cast operands |
| TorchToTcpElementwise.ConvertAtenAtan2 | lib/Conversion/TorchToTcp/Elementwise.cpp:572-616 | fails iff an operand is unranked or not float; otherwise `tcp.atan2` of the broadcast casts, rhs cast first |
| TorchToTcpElementwise.EmitChannelBroadcasts | lib/Conversion/TorchToTcp/Elementwise.cpp:243-253 | mean, variance, weight and bias are each expanded from `[C]` on axis 1 to the input's shape |
| TorchToTcpElementwise.EmitNormalized | lib/Conversion/TorchToTcp/Elementwise.cpp:257-264 | emits `(input - mean) / sqrt(var + eps)` |
| TorchToTcpElementwise.EmitBatchNormArithmetic | lib/Conversion/TorchToTcp/Elementwise.cpp:257-270 | emits `weight * normalized + bias` and returns it as the result |
| TorchToTcpElementwise.ConvertAtenBatchNorm | lib/Conversion/TorchToTcp/Elementwise.cpp:175-273 | fails iff some tensor is unranked, running mean or variance is empty, eps is not a float constant or training is not the constant false; otherwise the twelve-op inference formula |
| TorchToTcpElementwise.BoundFits | lib/Conversion/TorchToTcp/Elementwise.cpp:381-385 | a float bound for an integer element type truncates to a value inside the signed 64-bit range, so its `static_cast<int64_t>` is defined |
| TorchToTcpElementwise.BoundAttrs | lib/Conversion/TorchToTcp/Elementwise.cpp:376-394 | a present bound fills the float slot for a float element type and the int slot for an integer one, truncating a float bound toward zero for an int slot |
| TorchToTcpElementwise.ConvertAtenClamp | lib/Conversion/TorchToTcp/Elementwise.cpp:351-411 | fails iff self is unranked, not int or float, or both bounds are None; otherwise one `tcp.clamp` holding each present bound in the slot of the element type's kind |
| TorchToTcpElementwise.ConvertAtenRelu | lib/Conversion/TorchToTcp/Elementwise.cpp:413-444 | fails iff self is unranked or not int or float |
| TorchToTcpElementwise.ReluIsClamp | lib/Conversion/TorchToTcp/Elementwise.cpp:413-444 | relu converts exactly as `clamp(self, min = 0, max = None)` |
| TorchToTcpElementwise.ConvertAtenSqrt | lib/Conversion/TorchToTcp/Elementwise.cpp:446-484 | fails iff self is unranked or not int or float; an integer input is cast to the result dtype before `tcp.sqrt` |
| TorchToTcpElementwise.EmitOneLike | lib/Conversion/TorchToTcp/Elementwise.cpp:505-509 | a constant one broadcast to the input's shape |
| TorchToTcpElementwise.ConvertAtenLog1p | lib/Conversion/TorchToTcp/Elementwise.cpp:486-515 | fails iff self is unranked or not float; otherwise `log(self + bcast(1))` |
| TorchToTcpElementwise.ConvertAtenUnaryIntOrFp | lib/Conversion/TorchToTcp/Elementwise.cpp:518-545 | fails iff self is unranked or not int or float; otherwise the one TCP op the pattern names, applied to self |
| TorchToTcpElementwise.FpOnlyTarget | lib/Conversion/TorchToTcp/Elementwise.cpp:771-780 | `aten.round` is the only op mapped to `tcp.round_even`, and none is mapped to `tcp.round` |
| TorchToTcpElementwise.ConvertAtenUnaryFpOnly | lib/Conversion/TorchToTcp/Elementwise.cpp:548-570 | fails iff self is unranked or not float; otherwise the mapped TCP op applied to self |
| TorchToTcpElementwise.IsFpOnlyOpLegal | lib/Conversion/TorchToTcp/Elementwise.cpp:757-768 | a float-only op is legal, and left in Torch, iff its input element type is not float |
| TorchToTcpElementwise.FpOnlyLegalityMatchesPattern | lib/Conversion/TorchToTcp/Elementwise.cpp:757-781 | on a ranked input, the float-only pattern succeeds exactly when the dynamic legality check marks the op illegal |
| TorchToTcpElementwise.MemoryFormatSupported | lib/Conversion/TorchToTcp/Elementwise.cpp:657-667 | the memory format is supported iff it is None or the int constant for contiguous (0) or preserve (1) |
| TorchToTcpElementwise.ToDtypeCast | lib/Conversion/TorchToTcp/Elementwise.cpp:669-710 | for an int or float input it succeeds iff the output is int or float, giving a cast whose signedness is attached exactly on the integer side(s) |
| TorchToTcpElementwise.ConvertAtenToDtype | lib/Conversion/TorchToTcp/Elementwise.cpp:618-713 | fails iff a side is not a value tensor, either dtype is not int or float, `non_blocking` or `copy` is not the constant false, or the memory format is unsupported; otherwise one `tcp.cast` on self |
| TorchToTcpElementwise.FloatToFloatCastIsUnsigned | lib/Conversion/TorchToTcp/Elementwise.cpp:669-674 | a float-to-float `to.dtype` succeeds and carries no signedness on either side |
| CustomOpBuilder.AttrsOf | lib/Conversion/TorchToTcp/TcpCustomOp.cpp:84-91 | the attributes recorded by a list of requests: one per accepted request, in request order |
| CustomOpBuilder.FirstRejected | lib/Conversion/TorchToTcp/TcpCustomOp.cpp:43-47 | the failure `replace` reports: the name of a rejected request, kept from the first rejection on |
| CustomOpBuilder.FirstRejectedIsEarliest | lib/Conversion/TorchToTcp/TcpCustomOp.cpp:43-47 | the reported failure is the name of the earliest rejected request |
| CustomOpBuilder.Packaged | lib/Conversion/TorchToTcp/TcpCustomOp.cpp:43-47 | what `replace` yields: the first failure, or a custom op with the source op's name, the operands in call order and the recorded attributes |
| CustomOpBuilder.AppendRequest | lib/Conversion/TorchToTcp/TcpCustomOp.cpp:43-47 | one more request appends its attribute and keeps the first failure, if any |
| CustomOpBuilder.PackagedFailsIffRejected | lib/Conversion/TorchToTcp/TcpCustomOp.cpp:43-47 | a helper's `replace` fails iff some attribute request was rejected |
| CustomOpBuilder.AttrsInRequestOrder | lib/Conversion/TorchToTcp/TcpCustomOp.cpp:84-91 | when every request is accepted, the i-th attribute is the i-th request's name and encoded value |
| CustomOpBuilder.AttrNamesFromRequests | lib/Conversion/TorchToTcp/TcpCustomOp.cpp:84-91 | every attribute's name is the name of some request |
| CustomOpBuilder.DistinctRequestsGiveDistinctAttrs | lib/Conversion/TorchToTcp/TcpCustomOp.cpp:84-91 | distinct request names give distinct attribute names |
| CustomOpBuilder.PackagedUniqueNames | lib/Conversion/TorchToTcp/TcpCustomOp.cpp:43-47 | distinct operand names and request names give a custom op whose operand and attribute names are unique |
| CustomOpBuilder.NatToString | lib/Conversion/TorchToTcp/TcpCustomOp.cpp:314 | the decimal rendering of a number is non-empty and has one digit iff the number is below ten |
| CustomOpBuilder.NatToStringInjective | lib/Conversion/TorchToTcp/TcpCustomOp.cpp:314 | distinct numbers have distinct decimal renderings |
| CustomOpBuilder.IndexedNamesDistinct | lib/Conversion/TorchToTcp/TcpCustomOp.cpp:61 | `prefix + i` and `prefix + j` differ for i ≠ j |
| CustomOpBuilder.IndexedOperands | lib/Conversion/TorchToTcp/TcpCustomOp.cpp:61 | one named operand per value in the list |
| CustomOpBuilder.Builder.constructor | lib/Conversion/TorchToTcp/TcpCustomOp.cpp:40-41 | a fresh helper holds the op name and no operands, requests or failure |
| CustomOpBuilder.Builder.AddOperand | lib/Conversion/TorchToTcp/TcpCustomOp.cpp:43-44 | appends one named operand and changes nothing else |
| CustomOpBuilder.Builder.AddAsMultipleTensorOperands | lib/Conversion/TorchToTcp/TcpCustomOp.cpp:61 | appends one operand per list element, named by prefix and index, in list order |
| CustomOpBuilder.Builder.Request | lib/Conversion/TorchToTcp/TcpCustomOp.cpp:45 | records one attribute request: its attribute, if accepted, is appended, and the first failure is kept |
| CustomOpBuilder.Builder.AddIntAttr | lib/Conversion/TorchToTcp/TcpCustomOp.cpp:45 | requests an integer attribute from a constant int |
| CustomOpBuilder.Builder.AddBoolAttr | lib/Conversion/TorchToTcp/TcpCustomOp.cpp:63-64 | requests a bool attribute from a constant bool |
| CustomOpBuilder.Builder.AddFloatAttr | lib/Conversion/TorchToTcp/TcpCustomOp.cpp:97-115 | requests a float attribute from a constant float |
| CustomOpBuilder.Builder.AddListOfIntsAttr | lib/Conversion/TorchToTcp/TcpCustomOp.cpp:84-87 | requests an int-list attribute from a list of constant ints |
| CustomOpBuilder.Builder.AddDenseIntArrayAttr | lib/Conversion/TorchToTcp/TcpCustomOp.cpp:319 | records a dense int array attribute, which is never rejected |
| CustomOpBuilder.Builder.TryConvertConstToFloatAttr | lib/Conversion/TorchToTcp/TcpCustomOp.cpp:364-376 | records a float attribute and returns true iff the argument is an int or float constant |
| CustomOpBuilder.Builder.Replace | lib/Conversion/TorchToTcp/TcpCustomOp.cpp:47 | the outcome is the specification `Packaged` of the requests made; it succeeds iff no request failed, with the operands and attributes collected |
| TorchToTcpCustomOp.ConvertAtenGather | lib/Conversion/TorchToTcp/TcpCustomOp.cpp:33-49 | self and index operands and the `axis` attribute; succeeds iff `dim` is a constant int |
| TorchToTcpCustomOp.IndexPutOperandNamesDistinct | lib/Conversion/TorchToTcp/TcpCustomOp.cpp:60-62 | `self`, `index_<i>` and `values` are pairwise distinct |
| TorchToTcpCustomOp.ConvertAtenIndexPutImpl | lib/Conversion/TorchToTcp/TcpCustomOp.cpp:50-69 | self, the indices and values as operands; succeeds iff `accumulate` and `unsafe` are constant bools, and then all names are unique |
| TorchToTcpCustomOp.AddConvolutionOperands | lib/Conversion/TorchToTcp/TcpCustomOp.cpp:80-84 | input and weight, and bias exactly when it is not None |
| TorchToTcpCustomOp.ConvertAtenConvolution | lib/Conversion/TorchToTcp/TcpCustomOp.cpp:71-95 | the six attribute requests in order; on success, three operands iff a bias is given |
| TorchToTcpCustomOp.ConvertAtenFakeQuantizePerTensorAffine | lib/Conversion/TorchToTcp/TcpCustomOp.cpp:97-115 | self plus float scale and int zero_point, quant_min and quant_max attributes |
| TorchToTcpCustomOp.ConvertAtenFakeQuantizePerTensorAffineTensorQparams | lib/Conversion/TorchToTcp/TcpCustomOp.cpp:117-153 | fails on a scale that is not a one-element rank-1 tensor, then on a zero point that does not match it; otherwise self, scale and zero_point with quant_min and quant_max |
| TorchToTcpCustomOp.ConvertAtenFakeQuantizePerChannelAffine | lib/Conversion/TorchToTcp/TcpCustomOp.cpp:155-189 | fails on a scale of rank other than 1, then on a zero point whose element count differs; otherwise three operands and axis, quant_min, quant_max |
| TorchToTcpCustomOp.ConvertAtenTopk | lib/Conversion/TorchToTcp/TcpCustomOp.cpp:191-209 | self plus k, dim, largest and sorted attributes |
| TorchToTcpCustomOp.ConvertAtenSort | lib/Conversion/TorchToTcp/TcpCustomOp.cpp:211-227 | self plus dim and descending attributes |
| TorchToTcpCustomOp.ConvertAtenCumsum | lib/Conversion/TorchToTcp/TcpCustomOp.cpp:229-246 | fails when a dtype is given; otherwise self plus dim |
| TorchToTcpCustomOp.ConvertAtenMinDim | lib/Conversion/TorchToTcp/TcpCustomOp.cpp:248-264 | self plus dim and keepdim attributes |
| TorchToTcpCustomOp.ConvertAtenSliceScatter | lib/Conversion/TorchToTcp/TcpCustomOp.cpp:326-346 | self and src plus dim, start, end and step attributes |
| TorchToTcpCustomOp.ViewOutcome | lib/Conversion/TorchToTcp/TcpCustomOp.cpp:266-324 | on success: the size was a list construct with a non-constant entry; operands are self and one `idx_<i>` per traced dim; the size attribute has one entry per element, the constant or `kDynamic` |
| TorchToTcpCustomOp.FirstViewFailureSticks | lib/Conversion/TorchToTcp/TcpCustomOp.cpp:290-317 | once an element's producer chain is broken, the first failure does not change |
| TorchToTcpCustomOp.ConvertAtenView | lib/Conversion/TorchToTcp/TcpCustomOp.cpp:266-324 | the loop over the list elements computes exactly `ViewOutcome` (with the size vector corrected, see Findings) |
| TorchToTcpCustomOp.FirstViewFailureNone | lib/Conversion/TorchToTcp/TcpCustomOp.cpp:290-317 | no failure among the first n elements iff none of them is broken |
| TorchToTcpCustomOp.ViewFailsIff | lib/Conversion/TorchToTcp/TcpCustomOp.cpp:276-317 | view fails iff the size is not a list construct, or is all constant, or some element's producer chain is broken |
| TorchToTcpCustomOp.DimOperandsFromPositions | lib/Conversion/TorchToTcp/TcpCustomOp.cpp:314 | every `idx_<i>` operand sits at a traced dynamic position i and carries that element's dim |
| TorchToTcpCustomOp.DimOperandNamesDistinct | lib/Conversion/TorchToTcp/TcpCustomOp.cpp:314 | the `idx_<i>` operand names are pairwise distinct |
| TorchToTcpCustomOp.ViewUniqueNames | lib/Conversion/TorchToTcp/TcpCustomOp.cpp:282-319 | a successful view has unique operand and attribute names |
| TorchToTcpCustomOp.BinderPrefix | lib/Conversion/TorchToTcp/TcpCustomOp.cpp:276-280 | what the constant-list binder leaves in `size` when it fails: never more entries than the list has |
| TorchToTcpCustomOp.BinderPrefixIsLeadingConstants | lib/Conversion/TorchToTcp/TcpCustomOp.cpp:276-280 | the binder's leftover is exactly the run of leading constants, stopping at the first non-constant element |
| TorchToTcpCustomOp.ViewSizeAsWritten | lib/Conversion/TorchToTcp/TcpCustomOp.cpp:276-321 | the size vector as written: the binder's leftover followed by one entry per element, between one and two entries per element |
| TorchToTcpCustomOp.ViewSizeAsWrittenDiffers | lib/Conversion/TorchToTcp/TcpCustomOp.cpp:276-321 | for a list with a non-constant entry, the as-written size has the leftover's length added, and differs from one entry per element iff the first entry is a constant |
| TorchToTcpCustomOp.ViewSizeAsWrittenDuplicatesConstantPrefix | lib/Conversion/TorchToTcp/TcpCustomOp.cpp:276-295 | with the constant-list binder's partial writes, `view(x, [2, d])` gets size `[2, 2, kDynamic]`, longer than the list |
| TorchToTcpCustomOp.ConvertAtenArangeStartStep | lib/Conversion/TorchToTcp/TcpCustomOp.cpp:348-391 | fails on an unsupported pin_memory; otherwise fails iff all three bounds are numeric constants; on success each constant bound is a float attribute and every other bound is an operand, in start, end, step order |
| TorchToTcpCustomOp.AddBound | lib/Conversion/TorchToTcp/TcpCustomOp.cpp:364-367 | a bound becomes an attribute iff it is a numeric constant and an operand otherwise; the result says which |
| TorchToTcpCustomOp.ArangePlacesEachBoundOnce | lib/Conversion/TorchToTcp/TcpCustomOp.cpp:364-375 | start, end and step each occur exactly once among attributes and operands together |
| TorchToTcpCustomOp.BoundCounts | lib/Conversion/TorchToTcp/TcpCustomOp.cpp:364-367 | one bound contributes its name once, either as an attribute or as an operand |
| TorchToTcpCustomOp.IsTransposedConv | lib/Conversion/TorchToTcp/TcpCustomOp.cpp:421-426 | a convolution is transposed iff `transposed` is the constant true; a non-constant flag counts as not transposed |
| TorchToTcpCustomOp.Is2dConv | lib/Conversion/TorchToTcp/TcpCustomOp.cpp:430-433 | a convolution is 2-D iff its input has four dimensions |
| TorchToTcpCustomOp.ConvolutionLegal | lib/Conversion/TorchToTcp/TcpCustomOp.cpp:438-443 | a convolution stays in Torch iff it is not transposed and is 2-D |
| TorchToTcpCustomOp.ConvolutionLegalityFromCustomOp | lib/Conversion/TorchToTcp/TcpCustomOp.cpp:71-95 | on a successful conversion the fifth attribute is `transposed`, and the op is legal iff that attribute is false and the input has rank 4, so every converted convolution is transposed or not 2-D |
| TcpToLinalgElementwise.ClampPayload | lib/Conversion/TcpToLinalg/Elementwise.cpp:68-99 | float elements: `maximumf` with the min bound, then `minimumf` with the max bound, as f32 constants; integer elements: `maxsi`/`minsi` with i64 constants; an absent bound is skipped |
| TcpToLinalgElementwise.CastIsIdentity | lib/Conversion/TcpToLinalg/Elementwise.cpp:237-244 | a cast keeps its argument iff the bit widths match and both signedness attributes are absent or both present and equal |
| TcpToLinalgElementwise.CastSupported | lib/Conversion/TcpToLinalg/Elementwise.cpp:232-305 | the casts the lowering handles without reaching `llvm_unreachable` or reading an absent signedness |
| TcpToLinalgElementwise.IntToIntAsWritten | lib/Conversion/TcpToLinalg/Elementwise.cpp:290-301 | int→int as written: `trunci` when narrowing, otherwise `extui`/`extsi` by the input signedness, also at equal width |
| TcpToLinalgElementwise.IntToInt | lib/Conversion/TcpToLinalg/Elementwise.cpp:290-301 | int→int corrected: equal width keeps the bits, narrowing truncates, widening extends by the input signedness |
| TcpToLinalgElementwise.CastPayload | lib/Conversion/TcpToLinalg/Elementwise.cpp:232-305 | the cast payload, corrected in two places (see Findings): identity, a compare with zero for i1, or one conversion chosen by kinds, widths and signedness; an equal-width int cast keeps the bits and an equal-width float cast that changes layout goes through f32 |
| TcpToLinalgElementwise.CastIdentityIff | lib/Conversion/TcpToLinalg/Elementwise.cpp:237-244 | the corrected cast payload is the block argument itself iff the widths match, the signedness agrees and the float layout is kept, or the cast is an equal-width int cast not to i1 |
| TcpToLinalgElementwise.CastToBoolComparesWithZero | lib/Conversion/TcpToLinalg/Elementwise.cpp:245-255 | a non-identity cast to i1 compares with a zero of the input type, `cmpf une` for floats and `cmpi ne` for ints |
| TcpToLinalgElementwise.CastConversion | lib/Conversion/TcpToLinalg/Elementwise.cpp:256-301 | any other cast is one conversion: trunc/ext for float↔float by width, ui/si↔fp by signedness, trunci for narrowing, extui/extsi by input signedness |
| TcpToLinalgElementwise.CastPayloadWellTyped | lib/Conversion/TcpToLinalg/Elementwise.cpp:232-305 | with signedness present on integer sides, every corrected cast payload is well typed: an identity only between equal types, float layouts included, and each conversion between the right kinds, widening or narrowing as arith demands |
| TcpToLinalgElementwise.SameWidthFloatCastAsWritten | lib/Conversion/TcpToLinalg/Elementwise.cpp:237-244 | as written, the identity test accepts f16 → bf16, and the argument itself is then not a well-typed bf16 result |
| TcpToLinalgElementwise.LayoutChangeLowersThroughF32 | lib/Conversion/TcpToLinalg/Elementwise.cpp:237-268 | corrected: a 16-bit float cast that changes layout is `truncf(extf x to f32)`, which is well typed |
| TcpToLinalgElementwise.EqualWidthIntCastAsWritten | lib/Conversion/TcpToLinalg/Elementwise.cpp:290-301 | as written, a si8→ui8 cast lowers to `extsi i8 → i8`, an extension that does not widen |
| TcpToLinalgElementwise.PayloadSupported | lib/Conversion/TcpToLinalg/Elementwise.cpp:58-309 | the ops and element types on which the payload builder neither reaches `llvm_unreachable` nor reads an absent signedness |
| TcpToLinalgElementwise.Payload | lib/Conversion/TcpToLinalg/Elementwise.cpp:58-309 | fails exactly for an op outside the lowering's list, with the "unimplemented lowering" diagnostic; a cast gets the corrected `CastPayload` |
| TcpToLinalgElementwise.PayloadOpsMatchElementKind | lib/Conversion/TcpToLinalg/Elementwise.cpp:65-230 | except for neg and cast, a payload uses only float ops on float elements and only integer ops on integer elements |
| TcpToLinalgElementwise.NegIsAlwaysFloatNegation | lib/Conversion/TcpToLinalg/Elementwise.cpp:152-154 | neg always lowers to `arith.negf`, also on integer elements |
| TcpToLinalgElementwise.DivSIModes | lib/Conversion/TcpToLinalg/Elementwise.cpp:198-210 | signed division lowers to `divsi`, `ceildivsi` or `floordivsi` by rounding mode |
| TcpToLinalgElementwise.DivUIModes | lib/Conversion/TcpToLinalg/Elementwise.cpp:212-222 | unsigned division lowers to `ceildivui` for ceil and to `divui` otherwise |
| TcpToLinalgElementwise.IdentityMap | lib/Conversion/TcpToLinalg/Elementwise.cpp:42-44 | the identity map of a rank sends dimension i to result i |
| TcpToLinalgElementwise.MixedSizes | lib/Conversion/TcpToLinalg/Elementwise.cpp:39-40 | one size per dimension of the operand |
| TcpToLinalgElementwise.CreateElementwiseLinalgGeneric | lib/Conversion/TcpToLinalg/Elementwise.cpp:30-56 | the generic reads all operands, has n+1 identity maps and all-parallel iterators, and its init has the result element type and the first operand's sizes, static or `dim` |
| TcpToLinalgElementwise.GenericIsElementwise | lib/Conversion/TcpToLinalg/Elementwise.cpp:30-56 | every operand and the init are read at the iteration point itself |
| TcpToLinalgElementwise.RankedOperands | lib/Conversion/TcpToLinalg/Elementwise.cpp:324-327 | a value is kept iff it is an operand with a ranked tensor type |
| TcpToLinalgElementwise.RankedOperandsOfConcat | lib/Conversion/TcpToLinalg/Elementwise.cpp:324-327 | the filter keeps order and multiplicity: it distributes over concatenation |
| TcpToLinalgElementwise.RankedOperandsOfOne | lib/Conversion/TcpToLinalg/Elementwise.cpp:324-327 | on one operand the filter keeps it iff it is ranked |
| TcpToLinalgElementwise.RankedOperandsOfAllRanked | lib/Conversion/TcpToLinalg/Elementwise.cpp:324-327 | the filter keeps an all-ranked operand list unchanged |
| TcpToLinalgElementwise.ConvertElementwiseOp | lib/Conversion/TcpToLinalg/Elementwise.cpp:311-343 | the generic reads the ranked operands, has one map more than inputs and one iterator per result dimension, and its body is the payload of the op |
| PayloadSemantics.IntegerAdd | lib/Conversion/TcpToLinalg/Elementwise.cpp:160-168 | the integer add payload computes x + y |
| PayloadSemantics.IntegerSub | lib/Conversion/TcpToLinalg/Elementwise.cpp:170-178 | the integer sub payload computes x - y |
| PayloadSemantics.IntegerMul | lib/Conversion/TcpToLinalg/Elementwise.cpp:180-188 | the integer mul payload computes x * y |
| PayloadSemantics.IntegerAbs | lib/Conversion/TcpToLinalg/Elementwise.cpp:138-146 | the integer abs payload computes \|x\| |
| PayloadSemantics.IntegerClamp | lib/Conversion/TcpToLinalg/Elementwise.cpp:83-95 | integer clamp is `min(max(x, lo), hi)` with absent bounds dropped; it lands in `[lo, hi]` when lo ≤ hi and fixes values already there |
| PayloadSemantics.SignedDivisionRounds | lib/Conversion/TcpToLinalg/Elementwise.cpp:198-210 | for y ≠ 0 the signed division payload is the exact quotient rounded by the op's mode |
| PayloadSemantics.UnsignedDivisionRounds | lib/Conversion/TcpToLinalg/Elementwise.cpp:212-222 | on naturals the unsigned division payload is the exact quotient rounded by the op's mode, trunc and floor sharing `divui` |
| IntegerDivision.FloorDivBounds | lib/Conversion/TcpToLinalg/Elementwise.cpp:207-209 | the floor quotient q satisfies yq ≤ x < yq + y for y > 0, and mirrored for y < 0 |
| IntegerDivision.FloorDivIsFloor | lib/Conversion/TcpToLinalg/Elementwise.cpp:207-209 | the floor quotient is ⌊x / y⌋ of the exact rational quotient |
| IntegerDivision.CeilDivIsNegatedFloorDiv | lib/Conversion/TcpToLinalg/Elementwise.cpp:204-206 | ceil(x, y) = -floor(-x, y) |
| IntegerDivision.CeilDivIsCeil | lib/Conversion/TcpToLinalg/Elementwise.cpp:204-206 | the ceil quotient is ⌈x / y⌉ of the exact quotient |
| IntegerDivision.TruncDivIsTrunc | lib/Conversion/TcpToLinalg/Elementwise.cpp:203 | the truncating quotient is the exact quotient rounded toward zero |
| IntegerDivision.FloorIsTruncOnNaturals | lib/Conversion/TcpToLinalg/Elementwise.cpp:215-221 | on naturals truncation and floor agree, so unsigned trunc and floor share one op |
| EndToEnd.IntegerDivisionTruncates | lib/Conversion/TorchToTcp/Elementwise.cpp:324-346 | an integer `aten.div` lowers to a supported payload that computes the truncated quotient, for signed and for unsigned-on-naturals operands |
| EndToEnd.ToDtypeCastLowersWellTyped | lib/Conversion/TorchToTcp/Elementwise.cpp:669-710 | every cast `to.dtype` emits is supported by the cast lowering, and with the corrected equal-width integer and float-layout casts (see Findings) its payload is well typed |

## Left out

- The MLIR rewriter, the type converter and op locations are not modelled. Emitted ops are a step list, and the type converter is the identity on element types.
- The helpers in the TorchToTcp utilities are modelled by name only; their internals are not part of this model. This covers `castTensorToDtype`, `broadcastToMatchShape`, `broadcast0DOr1DToNDAndMatchShape`, `getConstTensor` and the custom-op helper. `getConstTensor` is taken never to fail.
- Float semantics are not modelled. Float payload ops have no value, float constants are reals, and the `float`/`double` rounding of constants such as batch-norm's eps is ignored.
- Integer widths are not modelled. Integer payload values are unbounded, so `PayloadSemantics` has no wrap-around and treats `divui`/`ceildivui` only on naturals.
- Float layouts other than IEEE and bfloat (the f8 variants, tf32) are not modelled. Floats of one width and one `bfloat` flag are one element type.
- Clamp's bounds are modelled as the source writes them: float bounds as f32 constants and integer bounds as i64 constants. The model checks no match against the element type.
- The pattern registration functions are not modelled: `populate...PatternsAndLegality`, the macros, and legality other than `ConvolutionLegal` and `IsFpOnlyOpLegal`.
- `lib/Pipeline/Pipeline.cpp` and `EliminateUnusedTorchOpsPass.h` are not part of this model.
- TorchToTcpElementwise.DivDispatch: requires integer lhs, rhs and output types when the output is not float. The source's `cast<mlir::IntegerType>` asserts on any other type (`Elementwise.cpp:327-329`).
- TorchToTcpElementwise.ConvertAtenDiv: requires, on a ranked self with a non-float output, integer operand and output types, for the same asserting cast in the division dispatch.
- TorchToTcpElementwise.ConvertAtenBatchNorm: requires static running-mean and running-variance shapes. The source calls `getNumElements()` on them (`Elementwise.cpp:207-208`), which asserts on a dynamic shape.
- TorchToTcpElementwise.ConvertAtenClamp: requires present bounds to be int or float constants, because the source reaches `llvm_unreachable` otherwise (`Elementwise.cpp:392`). It also requires `BoundFits`: converting an out-of-range float to `int64_t` is undefined behaviour (`Elementwise.cpp:384-385`).
- TorchToTcpCustomOp.ScaleIsSingleton: requires a static shape for a rank-1 scale, because `getNumElements()` asserts on a dynamic one (`TcpCustomOp.cpp:136`).
- TorchToTcpCustomOp.ZeroPointMatches: requires static shapes for a rank-1 scale and zero point, for the same `getNumElements()` calls (`TcpCustomOp.cpp:145`, `181`).
- TorchToTcpCustomOp.ConvertAtenFakeQuantizePerTensorAffineTensorQparams: requires static shapes where the source calls `getNumElements()` (`TcpCustomOp.cpp:136`, `145`).
- TorchToTcpCustomOp.ConvertAtenFakeQuantizePerChannelAffine: requires static scale and zero-point shapes where the source calls `getNumElements()` (`TcpCustomOp.cpp:181`).
- TorchToTcpCustomOp.ConvertAtenView: block arguments as the size list or as an element's producer are not modelled. The source crashes on them (`TcpCustomOp.cpp:283-284`, `301`, `306`, `311`).
- TorchToTcpCustomOp.ConvertAtenCumsum: a block-argument dtype is not modelled. The source's `isa` on its null defining op asserts (`TcpCustomOp.cpp:241`).
- TcpToLinalgElementwise.ConvertElementwiseOp: applies the payload only where it is defined. The source dereferences the payload result even when it failed. Its cast body is the corrected `CastPayload`.
- TcpToLinalgElementwise.CastPayload: covers only casts where `CastSupported` holds. The `llvm_unreachable` paths and `.value()` reads of absent signedness are preconditions, not behaviour. It is the corrected lowering, in two ways. An equal-width int→int cast whose signedness changes returns the block argument, where the source emits `extsi`/`extui` (`Elementwise.cpp:290-301`). An equal-width float cast that changes layout goes through f32, where the source returns the argument itself (`Elementwise.cpp:237-244`). `IntToIntAsWritten`, `EqualWidthIntCastAsWritten` and `SameWidthFloatCastAsWritten` give the source's behaviour.
- TcpToLinalgElementwise.CastPayloadWellTyped: holds of the corrected lowering only; on the source as written it fails for si8 → ui8 and for f16 → bf16 (see Findings).
- EndToEnd.ToDtypeCastLowersWellTyped: holds of the corrected lowering only. As written, `to.dtype` int8 → uint8 and float16 → bfloat16 lower to ill-typed payloads (see Findings).

## Findings

| source | as written | input that shows it | evidently intended | confidence | as-written member | corrected member |
|---|---|---|---|---|---|---|
| lib/Conversion/TorchToTcp/TcpCustomOp.cpp:276-295 | `size` is handed to the constant-list binder first. The binder appends each leading constant before it fails, and the loop then appends one entry per element. | `view(x, [2, d])` with `d` a traced `tensor.dim` gives size `[2, 2, kDynamic]` for a two-element list | the binder's partial result is discarded, so size has one entry per element: `[2, kDynamic]` | medium, not executed (binder internals inferred) | TorchToTcpCustomOp.ViewSizeAsWrittenDuplicatesConstantPrefix | TorchToTcpCustomOp.ConvertAtenView |
| lib/Conversion/TcpToLinalg/Elementwise.cpp:290-301 | an int→int cast of equal width whose signedness changes falls through to `extui`/`extsi` | `tcp.cast` si8 → ui8 (e.g. from `to.dtype` int8 → uint8) gives `arith.extsi i8 → i8`, which arith rejects because an extension must widen | an equal-width integer cast keeps the bits, so the payload is the block argument | medium, not executed | TcpToLinalgElementwise.EqualWidthIntCastAsWritten | TcpToLinalgElementwise.CastPayloadWellTyped |
| lib/Conversion/TcpToLinalg/Elementwise.cpp:237-244 | the identity test compares only bit widths and signedness annotations, so a float cast between two layouts of one width returns the argument itself | `to.dtype` float16 → bfloat16 gives a `tcp.cast` f16 → bf16 with no signedness, whose payload yields the f16 argument into a bf16 `linalg.generic` | a layout-changing float cast converts the value, here through f32: `truncf(extf x)` | medium, not executed | TcpToLinalgElementwise.SameWidthFloatCastAsWritten | TcpToLinalgElementwise.LayoutChangeLowersThroughF32 |
