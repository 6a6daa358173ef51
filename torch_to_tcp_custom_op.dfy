/**
  Torch-to-TCP patterns that package a source op as one `tcp.custom_op`
  (lib/Conversion/TorchToTcp/TcpCustomOp.cpp). Every pattern allocates a fresh
  builder, adds operands and attribute requests in the order the source does,
  and either fails with a diagnostic or returns what the single `Replace` commits.
*/
module TorchToTcpCustomOp {
  import opened Wrappers
  import opened TcpOps
  import opened Diagnostics
  import opened CustomOpBuilder

  /** Names of the source ops, carried by the committed custom op. */
  const ArangeStartStepOpName: string := "torch.aten.arange.start_step"
  const ConvolutionOpName: string := "torch.aten.convolution"
  const CumsumOpName: string := "torch.aten.cumsum"
  const FakeQuantizePerChannelOpName: string := "torch.aten.fake_quantize_per_channel_affine"
  const FakeQuantizePerTensorOpName: string := "torch.aten.fake_quantize_per_tensor_affine"
  const FakeQuantizePerTensorQparamsOpName: string := "torch.aten.fake_quantize_per_tensor_affine.tensor_qparams"
  const GatherOpName: string := "torch.aten.gather"
  const IndexPutImplOpName: string := "torch.aten._index_put_impl"
  const MinDimOpName: string := "torch.aten.min.dim"
  const SliceScatterOpName: string := "torch.aten.slice_scatter"
  const SortOpName: string := "torch.aten.sort"
  const TopkOpName: string := "torch.aten.topk"
  const ViewOpName: string := "torch.aten.view"

  /** Operand and attribute names of the encoding. */
  const AccumulateName: string := "accumulate"
  const AxisName: string := "axis"
  const BiasName: string := "bias"
  const DescendingName: string := "descending"
  const DilationName: string := "dilation"
  const DimName: string := "dim"
  const EndName: string := "end"
  const GroupsName: string := "groups"
  const IdxPrefix: string := "idx_"
  const IndexName: string := "index"
  const IndexPrefix: string := "index_"
  const InputName: string := "input"
  const KName: string := "k"
  const KeepdimName: string := "keepdim"
  const LargestName: string := "largest"
  const OutputPaddingName: string := "output_padding"
  const PaddingName: string := "padding"
  const QuantMaxName: string := "quant_max"
  const QuantMinName: string := "quant_min"
  const ScaleName: string := "scale"
  const SelfName: string := "self"
  const SizeName: string := "size"
  const SortedName: string := "sorted"
  const SrcName: string := "src"
  const StartName: string := "start"
  const StepName: string := "step"
  const StrideName: string := "stride"
  const TransposedName: string := "transposed"
  const UnsafeName: string := "unsafe"
  const ValuesName: string := "values"
  const WeightName: string := "weight"
  const ZeroPointName: string := "zero_point"

  function Bind(name: string, v: SsaValue): OperandBinding {
    OperandBinding(name, v)
  }

  /** Names whose first characters differ pairwise are distinct. */
  lemma DistinctByFirstChar(names: seq<string>)
    requires forall i :: 0 <= i < |names| ==> |names[i]| > 0
    requires forall i, j :: 0 <= i < j < |names| ==> names[i][0] != names[j][0]
    ensures DistinctStrings(names)
  {
  }

  // ---------------------------------------------------------------------------
  // Straight packaging

  /** ConvertAtenGatherOp: operands self and index, int attribute axis from `dim`. */
  method ConvertAtenGather(self: SsaValue, index: SsaValue, dim: ConstArg) returns (r: Result<CustomOp>)
    ensures r == Packaged(GatherOpName, [Bind(SelfName, self), Bind(IndexName, index)], [IntRequest(AxisName, dim)])
    ensures r.Success? <==> dim.ConstInt?
  {
    var helper := new Builder(GatherOpName);
    helper.AddOperand(SelfName, self);
    helper.AddOperand(IndexName, index);
    helper.AddIntAttr(AxisName, dim);
    r := helper.Replace();
    assert helper.operands == [Bind(SelfName, self), Bind(IndexName, index)];
    assert helper.requests == [IntRequest(AxisName, dim)];
  }

  function IndexPutOperands(self: SsaValue, indices: seq<SsaValue>, values: SsaValue): seq<OperandBinding> {
    [Bind(SelfName, self)] + IndexedOperands(IndexPrefix, indices, |indices|) + [Bind(ValuesName, values)]
  }

  lemma IndexPutOperandNamesDistinct(self: SsaValue, indices: seq<SsaValue>, values: SsaValue)
    ensures DistinctStrings(OperandNames(IndexPutOperands(self, indices, values)))
  {
    var os := IndexPutOperands(self, indices, values);
    var names := OperandNames(os);
    var n := |indices|;
    forall i, j | 0 <= i < j < |names| ensures names[i] != names[j] {
      if 1 <= i && j <= n {
        assert names[i] == IndexPrefix + NatToString(i - 1) && names[j] == IndexPrefix + NatToString(j - 1);
        IndexedNamesDistinct(IndexPrefix, i - 1, j - 1);
      } else if i == 0 {
        assert names[i][0] == 's';
        if j <= n {
          assert names[j] == IndexPrefix + NatToString(j - 1);
          assert names[j][0] == 'i';
        } else {
          assert names[j] == ValuesName;
        }
      } else {
        assert names[i] == IndexPrefix + NatToString(i - 1);
        assert names[i][0] == 'i' && names[j] == ValuesName;
      }
    }
  }

  /**
    ConvertAten_IndexPutImplOp: operand self, then one operand `index_<i>` per
    index tensor, then values; bool attributes accumulate and unsafe.
  */
  method ConvertAtenIndexPutImpl(self: SsaValue, indices: seq<SsaValue>, values: SsaValue,
                                 accumulate: ConstArg, unsafe: ConstArg)
    returns (r: Result<CustomOp>)
    ensures r == Packaged(IndexPutImplOpName, IndexPutOperands(self, indices, values),
                          [BoolRequest(AccumulateName, accumulate), BoolRequest(UnsafeName, unsafe)])
    ensures r.Success? <==> accumulate.ConstBool? && unsafe.ConstBool?
    ensures r.Success? ==> UniqueNames(r.value)
  {
    var helper := new Builder(IndexPutImplOpName);
    helper.AddOperand(SelfName, self);
    helper.AddAsMultipleTensorOperands(IndexPrefix, indices);
    helper.AddOperand(ValuesName, values);
    helper.AddBoolAttr(AccumulateName, accumulate);
    helper.AddBoolAttr(UnsafeName, unsafe);
    r := helper.Replace();
    assert helper.operands == IndexPutOperands(self, indices, values);
    assert helper.requests == [BoolRequest(AccumulateName, accumulate), BoolRequest(UnsafeName, unsafe)];
    IndexPutOperandNamesDistinct(self, indices, values);
    DistinctByFirstChar(RequestNames(helper.requests));
    PackagedUniqueNames(IndexPutImplOpName, helper.operands, helper.requests);
  }

  function ConvolutionOperands(input: SsaValue, weight: SsaValue, bias: Option<SsaValue>): seq<OperandBinding> {
    [Bind(InputName, input), Bind(WeightName, weight)] + (if bias.Some? then [Bind(BiasName, bias.value)] else [])
  }

  function ConvolutionRequests(stride: Option<seq<int>>, padding: Option<seq<int>>, dilation: Option<seq<int>>,
                               outputPadding: Option<seq<int>>, transposed: ConstArg, groups: ConstArg): seq<AttrRequest> {
    [IntListRequest(StrideName, stride), IntListRequest(PaddingName, padding), IntListRequest(DilationName, dilation),
     IntListRequest(OutputPaddingName, outputPadding), BoolRequest(TransposedName, transposed), IntRequest(GroupsName, groups)]
  }

  /**
    ConvertAtenConvolutionOp: operands input, weight and, only when bias is not
    None, bias; int-list attributes stride, padding, dilation, output_padding, a
    bool transposed and an int groups.
  */
  method ConvertAtenConvolution(input: SsaValue, weight: SsaValue, bias: Option<SsaValue>,
                                stride: Option<seq<int>>, padding: Option<seq<int>>, dilation: Option<seq<int>>,
                                outputPadding: Option<seq<int>>, transposed: ConstArg, groups: ConstArg)
    returns (r: Result<CustomOp>)
    ensures r == Packaged(ConvolutionOpName, ConvolutionOperands(input, weight, bias),
                          ConvolutionRequests(stride, padding, dilation, outputPadding, transposed, groups))
    ensures r.Success? ==> (|r.value.operands| == 3 <==> bias.Some?)
  {
    var helper := new Builder(ConvolutionOpName);
    AddConvolutionOperands(helper, input, weight, bias);
    helper.AddListOfIntsAttr(StrideName, stride);
    helper.AddListOfIntsAttr(PaddingName, padding);
    assert helper.requests == [IntListRequest(StrideName, stride), IntListRequest(PaddingName, padding)];
    helper.AddListOfIntsAttr(DilationName, dilation);
    helper.AddListOfIntsAttr(OutputPaddingName, outputPadding);
    assert helper.requests == [IntListRequest(StrideName, stride), IntListRequest(PaddingName, padding),
                               IntListRequest(DilationName, dilation), IntListRequest(OutputPaddingName, outputPadding)];
    helper.AddBoolAttr(TransposedName, transposed);
    helper.AddIntAttr(GroupsName, groups);
    assert helper.requests == ConvolutionRequests(stride, padding, dilation, outputPadding, transposed, groups);
    r := helper.Replace();
  }

  /** The operands of a convolution: `bias` only when it is not None. */
  method AddConvolutionOperands(helper: Builder, input: SsaValue, weight: SsaValue, bias: Option<SsaValue>)
    requires helper.Valid() && helper.operands == [] && helper.requests == []
    modifies helper
    ensures helper.Valid()
    ensures helper.operands == ConvolutionOperands(input, weight, bias) && helper.requests == []
  {
    helper.AddOperand(InputName, input);
    helper.AddOperand(WeightName, weight);
    if bias.Some? {
      helper.AddOperand(BiasName, bias.value);
    }
  }

  /** ConvertAtenFakeQuantizePerTensorAffineOp: operand self; float scale, int zero_point, quant_min, quant_max. */
  method ConvertAtenFakeQuantizePerTensorAffine(self: SsaValue, scale: ConstArg, zeroPoint: ConstArg,
                                                quantMin: ConstArg, quantMax: ConstArg)
    returns (r: Result<CustomOp>)
    ensures r == Packaged(FakeQuantizePerTensorOpName, [Bind(SelfName, self)],
                          [FloatRequest(ScaleName, scale), IntRequest(ZeroPointName, zeroPoint),
                           IntRequest(QuantMinName, quantMin), IntRequest(QuantMaxName, quantMax)])
  {
    var helper := new Builder(FakeQuantizePerTensorOpName);
    helper.AddOperand(SelfName, self);
    helper.AddFloatAttr(ScaleName, scale);
    helper.AddIntAttr(ZeroPointName, zeroPoint);
    assert helper.requests == [FloatRequest(ScaleName, scale), IntRequest(ZeroPointName, zeroPoint)];
    helper.AddIntAttr(QuantMinName, quantMin);
    assert helper.requests == [FloatRequest(ScaleName, scale), IntRequest(ZeroPointName, zeroPoint),
                               IntRequest(QuantMinName, quantMin)];
    helper.AddIntAttr(QuantMaxName, quantMax);
    assert helper.operands == [Bind(SelfName, self)];
    assert helper.requests == [FloatRequest(ScaleName, scale), IntRequest(ZeroPointName, zeroPoint),
                               IntRequest(QuantMinName, quantMin), IntRequest(QuantMaxName, quantMax)];
    r := helper.Replace();
  }

  /** A ranked rank-1 tensor type, whose element count the qparam checks then read. */
  predicate RankOne(t: TensorArg) {
    t.ranked && |t.shape| == 1
  }

  /** The per-tensor scale: a [1] tensor. */
  predicate ScaleIsSingleton(scale: TensorArg)
    requires RankOne(scale) ==> IsStatic(scale.shape)
  {
    RankOne(scale) && NumElements(scale.shape) == 1
  }

  /** A zero point of rank 1 with as many elements as the scale. */
  predicate ZeroPointMatches(zeroPoint: TensorArg, scale: TensorArg)
    requires RankOne(scale) ==> IsStatic(scale.shape)
    requires RankOne(zeroPoint) ==> IsStatic(zeroPoint.shape)
  {
    RankOne(zeroPoint) && RankOne(scale) && NumElements(zeroPoint.shape) == NumElements(scale.shape)
  }

  /**
    ConvertAtenFakeQuantizePerTensorAffineTensorQparamsOp: the scale must be a [1]
    tensor and the zero point a rank-1 tensor with as many elements, else the
    match fails; the committed op has operands self, scale, zero_point and int
    attributes quant_min, quant_max.
  */
  method ConvertAtenFakeQuantizePerTensorAffineTensorQparams(self: SsaValue, scale: SsaValue, scaleType: TensorArg,
                                                            zeroPoint: SsaValue, zeroPointType: TensorArg,
                                                            quantMin: ConstArg, quantMax: ConstArg)
    returns (r: Result<CustomOp>)
    requires RankOne(scaleType) ==> IsStatic(scaleType.shape)
    requires ScaleIsSingleton(scaleType) && RankOne(zeroPointType) ==> IsStatic(zeroPointType.shape)
    ensures !ScaleIsSingleton(scaleType) ==> r == Failure(UnsupportedScale)
    ensures ScaleIsSingleton(scaleType) && !ZeroPointMatches(zeroPointType, scaleType) ==> r == Failure(UnsupportedZeroPoint)
    ensures ScaleIsSingleton(scaleType) && ZeroPointMatches(zeroPointType, scaleType) ==>
      r == Packaged(FakeQuantizePerTensorQparamsOpName,
                    [Bind(SelfName, self), Bind(ScaleName, scale), Bind(ZeroPointName, zeroPoint)],
                    [IntRequest(QuantMinName, quantMin), IntRequest(QuantMaxName, quantMax)])
  {
    var helper := new Builder(FakeQuantizePerTensorQparamsOpName);
    helper.AddOperand(SelfName, self);
    helper.AddIntAttr(QuantMinName, quantMin);
    helper.AddIntAttr(QuantMaxName, quantMax);
    assert helper.requests == [IntRequest(QuantMinName, quantMin), IntRequest(QuantMaxName, quantMax)];
    if !ScaleIsSingleton(scaleType) {
      return Failure(UnsupportedScale);
    }
    helper.AddOperand(ScaleName, scale);
    if !ZeroPointMatches(zeroPointType, scaleType) {
      return Failure(UnsupportedZeroPoint);
    }
    helper.AddOperand(ZeroPointName, zeroPoint);
    assert helper.operands == [Bind(SelfName, self), Bind(ScaleName, scale), Bind(ZeroPointName, zeroPoint)];
    r := helper.Replace();
  }

  /**
    ConvertAtenFakeQuantizePerChannelAffineOp: the scale must be a rank-1 [C]
    tensor and the zero point a rank-1 tensor with as many elements, else the
    match fails; operands self, scale, zero_point and int attributes axis,
    quant_min, quant_max.
  */
  method ConvertAtenFakeQuantizePerChannelAffine(self: SsaValue, scale: SsaValue, scaleType: TensorArg,
                                                 zeroPoint: SsaValue, zeroPointType: TensorArg,
                                                 axis: ConstArg, quantMin: ConstArg, quantMax: ConstArg)
    returns (r: Result<CustomOp>)
    requires RankOne(scaleType) && RankOne(zeroPointType) ==> IsStatic(scaleType.shape) && IsStatic(zeroPointType.shape)
    ensures !RankOne(scaleType) ==> r == Failure(UnsupportedScale)
    ensures RankOne(scaleType) && (RankOne(zeroPointType) ==> NumElements(zeroPointType.shape) != NumElements(scaleType.shape)) ==>
      r == Failure(UnsupportedZeroPoint)
    ensures RankOne(scaleType) && RankOne(zeroPointType) && NumElements(zeroPointType.shape) == NumElements(scaleType.shape) ==>
      r == Packaged(FakeQuantizePerChannelOpName,
                    [Bind(SelfName, self), Bind(ScaleName, scale), Bind(ZeroPointName, zeroPoint)],
                    [IntRequest(AxisName, axis), IntRequest(QuantMinName, quantMin), IntRequest(QuantMaxName, quantMax)])
  {
    var helper := new Builder(FakeQuantizePerChannelOpName);
    helper.AddOperand(SelfName, self);
    helper.AddIntAttr(AxisName, axis);
    helper.AddIntAttr(QuantMinName, quantMin);
    assert helper.requests == [IntRequest(AxisName, axis), IntRequest(QuantMinName, quantMin)];
    helper.AddIntAttr(QuantMaxName, quantMax);
    assert helper.requests == [IntRequest(AxisName, axis), IntRequest(QuantMinName, quantMin), IntRequest(QuantMaxName, quantMax)];
    if !RankOne(scaleType) {
      return Failure(UnsupportedScale);
    }
    helper.AddOperand(ScaleName, scale);
    if !RankOne(zeroPointType) || NumElements(zeroPointType.shape) != NumElements(scaleType.shape) {
      return Failure(UnsupportedZeroPoint);
    }
    helper.AddOperand(ZeroPointName, zeroPoint);
    assert helper.operands == [Bind(SelfName, self), Bind(ScaleName, scale), Bind(ZeroPointName, zeroPoint)];
    r := helper.Replace();
  }

  /** ConvertAtenTopkOp: operand self; int k and dim, bool largest and sorted. */
  method ConvertAtenTopk(self: SsaValue, k: ConstArg, dim: ConstArg, largest: ConstArg, sorted: ConstArg)
    returns (r: Result<CustomOp>)
    ensures r == Packaged(TopkOpName, [Bind(SelfName, self)],
                          [IntRequest(KName, k), IntRequest(DimName, dim), BoolRequest(LargestName, largest), BoolRequest(SortedName, sorted)])
  {
    var helper := new Builder(TopkOpName);
    helper.AddOperand(SelfName, self);
    helper.AddIntAttr(KName, k);
    helper.AddIntAttr(DimName, dim);
    helper.AddBoolAttr(LargestName, largest);
    helper.AddBoolAttr(SortedName, sorted);
    r := helper.Replace();
    assert helper.operands == [Bind(SelfName, self)];
    assert helper.requests == [IntRequest(KName, k), IntRequest(DimName, dim), BoolRequest(LargestName, largest), BoolRequest(SortedName, sorted)];
  }

  /** ConvertAtenSortOp: operand self; int dim, bool descending. */
  method ConvertAtenSort(self: SsaValue, dim: ConstArg, descending: ConstArg) returns (r: Result<CustomOp>)
    ensures r == Packaged(SortOpName, [Bind(SelfName, self)], [IntRequest(DimName, dim), BoolRequest(DescendingName, descending)])
  {
    var helper := new Builder(SortOpName);
    helper.AddOperand(SelfName, self);
    helper.AddIntAttr(DimName, dim);
    helper.AddBoolAttr(DescendingName, descending);
    r := helper.Replace();
    assert helper.operands == [Bind(SelfName, self)];
    assert helper.requests == [IntRequest(DimName, dim), BoolRequest(DescendingName, descending)];
  }

  /**
    ConvertAtenCumsumOp: operand self and int attribute dim are added first; a
    dtype argument other than the None constant then fails the match and nothing
    is committed.
  */
  method ConvertAtenCumsum(self: SsaValue, dim: ConstArg, dtype: ConstArg) returns (r: Result<CustomOp>)
    ensures !dtype.NoneArg? ==> r == Failure(UnsupportedDtypeArgument)
    ensures dtype.NoneArg? ==> r == Packaged(CumsumOpName, [Bind(SelfName, self)], [IntRequest(DimName, dim)])
  {
    var helper := new Builder(CumsumOpName);
    helper.AddOperand(SelfName, self);
    helper.AddIntAttr(DimName, dim);
    if !dtype.NoneArg? {
      return Failure(UnsupportedDtypeArgument);
    }
    r := helper.Replace();
    assert helper.operands == [Bind(SelfName, self)];
    assert helper.requests == [IntRequest(DimName, dim)];
  }

  /** ConvertAtenMinDimOp: operand self; int dim, bool keepdim. */
  method ConvertAtenMinDim(self: SsaValue, dim: ConstArg, keepdim: ConstArg) returns (r: Result<CustomOp>)
    ensures r == Packaged(MinDimOpName, [Bind(SelfName, self)], [IntRequest(DimName, dim), BoolRequest(KeepdimName, keepdim)])
  {
    var helper := new Builder(MinDimOpName);
    helper.AddOperand(SelfName, self);
    helper.AddIntAttr(DimName, dim);
    helper.AddBoolAttr(KeepdimName, keepdim);
    r := helper.Replace();
    assert helper.operands == [Bind(SelfName, self)];
    assert helper.requests == [IntRequest(DimName, dim), BoolRequest(KeepdimName, keepdim)];
  }

  /** ConvertAtenSliceScatterOp: operands self and src; int dim, start, end, step. */
  method ConvertAtenSliceScatter(self: SsaValue, src: SsaValue, dim: ConstArg, start: ConstArg, end: ConstArg, step: ConstArg)
    returns (r: Result<CustomOp>)
    ensures r == Packaged(SliceScatterOpName, [Bind(SelfName, self), Bind(SrcName, src)],
                          [IntRequest(DimName, dim), IntRequest(StartName, start), IntRequest(EndName, end), IntRequest(StepName, step)])
  {
    var helper := new Builder(SliceScatterOpName);
    helper.AddOperand(SelfName, self);
    helper.AddOperand(SrcName, src);
    helper.AddIntAttr(DimName, dim);
    helper.AddIntAttr(StartName, start);
    helper.AddIntAttr(EndName, end);
    helper.AddIntAttr(StepName, step);
    r := helper.Replace();
    assert helper.operands == [Bind(SelfName, self), Bind(SrcName, src)];
    assert helper.requests == [IntRequest(DimName, dim), IntRequest(StartName, start), IntRequest(EndName, end), IntRequest(StepName, step)];
  }

  // ---------------------------------------------------------------------------
  // view

  /** `ShapedType::kDynamic`, the int64 minimum. */
  const KDynamic: int := -0x8000_0000_0000_0000

  /** The producer chain a dynamic size entry must follow: tensor.dim, then arith.index_cast, then torch_c.from_i64. */
  datatype IndexSource = TensorDim(result: SsaValue) | OtherIndex
  datatype I64Source = IndexCast(index: IndexSource) | OtherI64
  datatype SizeElem = ConstSize(n: int) | FromI64(i64: I64Source) | OtherSize

  /** The `size` argument: a prim.ListConstruct of elements, or produced some other way. */
  datatype SizeList = ListConstruct(elems: seq<SizeElem>) | OtherList

  predicate AllConstant(elems: seq<SizeElem>) {
    forall i :: 0 <= i < |elems| ==> elems[i].ConstSize?
  }

  /** The diagnostic for an element whose producer chain is broken, if it is. */
  function ElemFailure(e: SizeElem): Option<string> {
    match e
    case ConstSize(_) => None
    case OtherSize => Some(DynamicDimFromFromI64)
    case FromI64(OtherI64) => Some(DynamicDimFromIndexCast)
    case FromI64(IndexCast(OtherIndex)) => Some(DynamicDimFromDim)
    case FromI64(IndexCast(TensorDim(_))) => None
  }

  /** The first broken element among the first `n`. */
  function FirstViewFailure(elems: seq<SizeElem>, n: nat): Option<string>
    requires n <= |elems|
  {
    if n == 0 then None
    else if FirstViewFailure(elems, n - 1).Some? then FirstViewFailure(elems, n - 1)
    else ElemFailure(elems[n - 1])
  }

  function SizeEntry(e: SizeElem): int {
    if e.ConstSize? then e.n else KDynamic
  }

  /** The entries of the size attribute for the first `n` elements. */
  function ViewSize(elems: seq<SizeElem>, n: nat): seq<int>
    requires n <= |elems|
  {
    seq(n, i requires 0 <= i < n => SizeEntry(elems[i]))
  }

  function IdxName(i: nat): string {
    IdxPrefix + NatToString(i)
  }

  /** The `idx_<i>` operands of the traced dynamic entries among the first `n`. */
  function DimOperands(elems: seq<SizeElem>, n: nat): seq<OperandBinding>
    requires n <= |elems|
  {
    if n == 0 then []
    else
      var e := elems[n - 1];
      DimOperands(elems, n - 1) +
        (if e.FromI64? && e.i64.IndexCast? && e.i64.index.TensorDim? then [Bind(IdxName(n - 1), e.i64.index.result)] else [])
  }

  /**
    What ConvertAtenViewOp produces: a failure for an all-constant size list, for
    a size that is not a list construct, and for the first dynamic entry whose
    producer chain is broken; otherwise self plus one `idx_<i>` operand per
    dynamic entry, and a size attribute with one entry per list element.
  */
  function ViewOutcome(self: SsaValue, size: SizeList): (r: Result<CustomOp>)
    ensures r.Success? ==> size.ListConstruct? && !AllConstant(size.elems)
    ensures r.Success? ==>
      r.value.opName == ViewOpName &&
      r.value.operands == [Bind(SelfName, self)] + DimOperands(size.elems, |size.elems|) &&
      |r.value.attrs| == 1 && r.value.attrs[0].name == SizeName && r.value.attrs[0].value.DenseIntArrayAttr? &&
      var s := r.value.attrs[0].value.elems;
      |s| == |size.elems| &&
      forall i :: 0 <= i < |s| ==> s[i] == (if size.elems[i].ConstSize? then size.elems[i].n else KDynamic)
  {
    match size
    case OtherList => Failure(ViewSizeFromListConstruct)
    case ListConstruct(elems) =>
      if AllConstant(elems) then Failure(ViewOnlyDynamicSize)
      else match FirstViewFailure(elems, |elems|)
        case Some(m) => Failure(m)
        case None =>
          Success(CustomOp(ViewOpName, [Bind(SelfName, self)] + DimOperands(elems, |elems|),
                           [AttrBinding(SizeName, DenseIntArrayAttr(ViewSize(elems, |elems|)))]))
  }

  /** Once an element fails, the failure found stays the first one. */
  lemma {:induction false} FirstViewFailureSticks(elems: seq<SizeElem>, n: nat, m: nat)
    requires n <= m <= |elems| && FirstViewFailure(elems, n).Some?
    ensures FirstViewFailure(elems, m) == FirstViewFailure(elems, n)
    decreases m
  {
    if m > n {
      FirstViewFailureSticks(elems, n, m - 1);
    }
  }

  /** ConvertAtenViewOp: walks the size list once, building the size attribute and the dim operands. */
  method ConvertAtenView(self: SsaValue, size: SizeList) returns (r: Result<CustomOp>)
    ensures r == ViewOutcome(self, size)
  {
    var helper := new Builder(ViewOpName);
    if size.ListConstruct? && AllConstant(size.elems) {
      return Failure(ViewOnlyDynamicSize);
    }
    helper.AddOperand(SelfName, self);
    if !size.ListConstruct? {
      return Failure(ViewSizeFromListConstruct);
    }
    var elems := size.elems;
    var sizeAttr: seq<int> := [];
    var idx := 0;
    while idx < |elems|
      invariant 0 <= idx <= |elems|
      invariant helper.Valid() && helper.requests == [] && helper.opName == ViewOpName
      invariant sizeAttr == ViewSize(elems, idx)
      invariant helper.operands == [Bind(SelfName, self)] + DimOperands(elems, idx)
      invariant FirstViewFailure(elems, idx) == None
    {
      var e := elems[idx];
      if e.ConstSize? {
        sizeAttr := sizeAttr + [e.n];
      } else {
        sizeAttr := sizeAttr + [KDynamic];
        if !e.FromI64? {
          assert FirstViewFailure(elems, idx + 1) == Some(DynamicDimFromFromI64);
          FirstViewFailureSticks(elems, idx + 1, |elems|);
          return Failure(DynamicDimFromFromI64);
        }
        if !e.i64.IndexCast? {
          assert FirstViewFailure(elems, idx + 1) == Some(DynamicDimFromIndexCast);
          FirstViewFailureSticks(elems, idx + 1, |elems|);
          return Failure(DynamicDimFromIndexCast);
        }
        if !e.i64.index.TensorDim? {
          assert FirstViewFailure(elems, idx + 1) == Some(DynamicDimFromDim);
          FirstViewFailureSticks(elems, idx + 1, |elems|);
          return Failure(DynamicDimFromDim);
        }
        helper.AddOperand(IdxName(idx), e.i64.index.result);
      }
      assert sizeAttr == ViewSize(elems, idx + 1);
      idx := idx + 1;
    }
    assert !AllConstant(elems) && FirstViewFailure(elems, |elems|) == None;
    helper.AddDenseIntArrayAttr(SizeName, sizeAttr);
    assert helper.attrs == [AttrBinding(SizeName, DenseIntArrayAttr(ViewSize(elems, |elems|)))];
    assert helper.failure == None;
    r := helper.Replace();
  }

  /** The failure cases of view, all of them. */
  lemma {:induction false} FirstViewFailureNone(elems: seq<SizeElem>, n: nat)
    requires n <= |elems|
    ensures FirstViewFailure(elems, n).None? <==> forall i :: 0 <= i < n ==> ElemFailure(elems[i]).None?
    decreases n
  {
    if n > 0 {
      FirstViewFailureNone(elems, n - 1);
    }
  }

  lemma ViewFailsIff(self: SsaValue, size: SizeList)
    ensures ViewOutcome(self, size).Failure? <==>
      size.OtherList? || AllConstant(size.elems) || exists i :: 0 <= i < |size.elems| && ElemFailure(size.elems[i]).Some?
  {
    if size.ListConstruct? {
      FirstViewFailureNone(size.elems, |size.elems|);
    }
  }

  /** Every dim operand is named after the position of a non-constant element before `n`, and carries that element's dim value. */
  lemma {:induction false} DimOperandsFromPositions(elems: seq<SizeElem>, n: nat)
    requires n <= |elems|
    ensures forall o :: o in DimOperands(elems, n) ==>
      exists i :: 0 <= i < n && o.name == IdxName(i) && elems[i].FromI64? && elems[i].i64.IndexCast? &&
                  elems[i].i64.index.TensorDim? && o.value == elems[i].i64.index.result
    decreases n
  {
    if n > 0 {
      DimOperandsFromPositions(elems, n - 1);
    }
  }

  lemma {:induction false} DimOperandNamesDistinct(elems: seq<SizeElem>, n: nat)
    requires n <= |elems|
    ensures DistinctStrings(OperandNames(DimOperands(elems, n)))
    decreases n
  {
    if n > 0 {
      DimOperandNamesDistinct(elems, n - 1);
      DimOperandsFromPositions(elems, n - 1);
      var prev := DimOperands(elems, n - 1);
      var all := DimOperands(elems, n);
      forall i, j | 0 <= i < j < |all| ensures all[i].name != all[j].name {
        if j < |prev| {
          assert OperandNames(prev)[i] == all[i].name && OperandNames(prev)[j] == all[j].name;
        } else {
          assert all[i] in prev;
          var k :| 0 <= k < n - 1 && all[i].name == IdxName(k);
          assert all[j].name == IdxName(n - 1);
          IndexedNamesDistinct(IdxPrefix, k, n - 1);
        }
      }
    }
  }

  /** Every `idx_<i>` operand name starts with `i`. */
  lemma {:induction false} DimNamesStartWithI(elems: seq<SizeElem>, n: nat)
    requires n <= |elems|
    ensures forall o :: o in DimOperands(elems, n) ==> |o.name| > 0 && o.name[0] == 'i'
    decreases n
  {
    if n > 0 {
      DimNamesStartWithI(elems, n - 1);
      assert IdxName(n - 1)[0] == 'i';
    }
  }

  /** A name that none of the following operands uses keeps a list of distinct operand names distinct. */
  lemma ConsDistinctNames(a: OperandBinding, rest: seq<OperandBinding>)
    requires DistinctStrings(OperandNames(rest))
    requires forall o :: o in rest ==> o.name != a.name
    ensures DistinctStrings(OperandNames([a] + rest))
  {
    var all := [a] + rest;
    var names := OperandNames(all);
    forall i, j | 0 <= i < j < |names| ensures names[i] != names[j] {
      assert all[j] == rest[j - 1];
      if i == 0 {
        assert rest[j - 1] in rest;
      } else {
        assert all[i] == rest[i - 1];
        assert OperandNames(rest)[i - 1] == rest[i - 1].name && OperandNames(rest)[j - 1] == rest[j - 1].name;
      }
    }
  }

  /** `self` followed by the `idx_<i>` operands: all operand names are distinct. */
  lemma SelfAndDimNamesDistinct(self: SsaValue, elems: seq<SizeElem>)
    ensures DistinctStrings(OperandNames([Bind(SelfName, self)] + DimOperands(elems, |elems|)))
  {
    var dims := DimOperands(elems, |elems|);
    DimOperandNamesDistinct(elems, |elems|);
    DimNamesStartWithI(elems, |elems|);
    assert SelfName[0] == 's';
    ConsDistinctNames(Bind(SelfName, self), dims);
  }

  /** A committed view has unique operand and attribute names. */
  lemma ViewUniqueNames(self: SsaValue, size: SizeList)
    ensures ViewOutcome(self, size).Success? ==> UniqueNames(ViewOutcome(self, size).value)
  {
    var r := ViewOutcome(self, size);
    if r.Success? {
      SelfAndDimNamesDistinct(self, size.elems);
    }
  }

  /**
    The size attribute as the source builds it: the same vector is first handed
    to the all-constant list matcher, which appends the leading constant entries
    before it meets the first non-constant one and fails, and the loop then
    appends one entry per element after them.
  */
  function BinderPrefix(elems: seq<SizeElem>): (r: seq<int>)
    ensures |r| <= |elems|
  {
    if elems == [] || !elems[0].ConstSize? then [] else [elems[0].n] + BinderPrefix(elems[1..])
  }

  function ViewSizeAsWritten(elems: seq<SizeElem>): (r: seq<int>)
    ensures |elems| <= |r| <= 2 * |elems|
  {
    BinderPrefix(elems) + ViewSize(elems, |elems|)
  }

  /** The binder's partial result is the run of leading constants, stopping at the first non-constant element. */
  lemma {:induction false} BinderPrefixIsLeadingConstants(elems: seq<SizeElem>)
    ensures forall i :: 0 <= i < |BinderPrefix(elems)| ==> elems[i].ConstSize? && BinderPrefix(elems)[i] == elems[i].n
    ensures |BinderPrefix(elems)| < |elems| ==> !elems[|BinderPrefix(elems)|].ConstSize?
    decreases |elems|
  {
    if elems != [] && elems[0].ConstSize? {
      BinderPrefixIsLeadingConstants(elems[1..]);
    }
  }

  /**
    For every size list with a non-constant entry (the only lists the loop
    sees), the as-written size attribute has one entry per element plus one per
    leading constant, so it differs from the intended one exactly when the list
    starts with a constant.
  */
  lemma ViewSizeAsWrittenDiffers(elems: seq<SizeElem>)
    requires !AllConstant(elems)
    ensures |elems| > 0
    ensures |ViewSizeAsWritten(elems)| == |BinderPrefix(elems)| + |elems|
    ensures ViewSizeAsWritten(elems) != ViewSize(elems, |elems|) <==> elems[0].ConstSize?
  {
    BinderPrefixIsLeadingConstants(elems);
    if elems[0].ConstSize? {
      assert |ViewSizeAsWritten(elems)| > |ViewSize(elems, |elems|)|;
    }
  }

  /** `view(x, [2, d])` with `d` dynamic: the as-written size attribute has three entries for a two-element list. */
  lemma ViewSizeAsWrittenDuplicatesConstantPrefix(d: SsaValue)
    ensures var elems := [ConstSize(2), FromI64(IndexCast(TensorDim(d)))];
      ViewSizeAsWritten(elems) == [2, 2, KDynamic] && |ViewSizeAsWritten(elems)| != |elems|
  {
    var elems := [ConstSize(2), FromI64(IndexCast(TensorDim(d)))];
    assert elems[1..] == [FromI64(IndexCast(TensorDim(d)))];
    assert BinderPrefix(elems) == [2];
  }

  // ---------------------------------------------------------------------------
  // arange

  /** pin_memory must be None or the constant false. */
  predicate PinMemorySupported(pinMemory: ConstArg) {
    pinMemory.NoneArg? || pinMemory == ConstBool(false)
  }

  /** A bound becomes an operand when it is not a numeric constant... */
  function DynamicBound(name: string, c: ConstArg, v: SsaValue): seq<OperandBinding> {
    if IsNumericConst(c) then [] else [Bind(name, v)]
  }

  /** ...and a float attribute when it is. */
  function StaticBound(name: string, c: ConstArg): seq<AttrBinding> {
    if IsNumericConst(c) then [AttrBinding(name, FloatAttr(AsReal(c)))] else []
  }

  /** The name occurs exactly once among the op's attributes and operands together. */
  predicate PlacedOnce(op: CustomOp, name: string) {
    multiset(AttrNames(op.attrs))[name] + multiset(OperandNames(op.operands))[name] == 1
  }

  /**
    ConvertAtenArangeStartStepOp: pin_memory must be None or false. Each of start,
    end and step becomes a float attribute when it is an int or float constant and
    an operand otherwise; when all three are constant the match fails.
  */
  method ConvertAtenArangeStartStep(start: ConstArg, startValue: SsaValue, end: ConstArg, endValue: SsaValue,
                                    step: ConstArg, stepValue: SsaValue, pinMemory: ConstArg)
    returns (r: Result<CustomOp>)
    ensures !PinMemorySupported(pinMemory) ==> r == Failure(PinMemoryUnsupported)
    ensures PinMemorySupported(pinMemory) ==>
      (r.Failure? <==> IsNumericConst(start) && IsNumericConst(end) && IsNumericConst(step))
    ensures PinMemorySupported(pinMemory) && r.Failure? ==> r.error == ArangeOnlyDynamic
    ensures r.Success? ==>
      r.value == CustomOp(ArangeStartStepOpName,
                          DynamicBound(StartName, start, startValue) + DynamicBound(EndName, end, endValue) +
                            DynamicBound(StepName, step, stepValue),
                          StaticBound(StartName, start) + StaticBound(EndName, end) + StaticBound(StepName, step))
  {
    if !PinMemorySupported(pinMemory) {
      return Failure(PinMemoryUnsupported);
    }
    var helper := new Builder(ArangeStartStepOpName);
    var allStatic := true;
    var converted := AddBound(helper, StartName, start, startValue);
    allStatic := allStatic && converted;
    converted := AddBound(helper, EndName, end, endValue);
    allStatic := allStatic && converted;
    converted := AddBound(helper, StepName, step, stepValue);
    allStatic := allStatic && converted;
    if allStatic {
      return Failure(ArangeOnlyDynamic);
    }
    r := helper.Replace();
  }

  /** One bound of arange: a float attribute if it converts, else an operand; never a failure. */
  method AddBound(helper: Builder, name: string, c: ConstArg, v: SsaValue) returns (converted: bool)
    requires helper.Valid()
    modifies helper
    ensures helper.Valid()
    ensures converted <==> IsNumericConst(c)
    ensures helper.operands == old(helper.operands) + DynamicBound(name, c, v)
    ensures helper.attrs == old(helper.attrs) + StaticBound(name, c)
    ensures helper.failure == old(helper.failure)
  {
    converted := helper.TryConvertConstToFloatAttr(name, c);
    if !converted {
      helper.AddOperand(name, v);
    }
  }

  /** Each of start, end and step ends up in exactly one place: an attribute or an operand. */
  lemma ArangePlacesEachBoundOnce(start: ConstArg, startValue: SsaValue, end: ConstArg, endValue: SsaValue,
                                  step: ConstArg, stepValue: SsaValue)
    ensures var op := CustomOp(ArangeStartStepOpName,
                               DynamicBound(StartName, start, startValue) + DynamicBound(EndName, end, endValue) +
                                 DynamicBound(StepName, step, stepValue),
                               StaticBound(StartName, start) + StaticBound(EndName, end) + StaticBound(StepName, step));
      PlacedOnce(op, StartName) && PlacedOnce(op, EndName) && PlacedOnce(op, StepName)
  {
    NamesOfConcat3(DynamicBound(StartName, start, startValue), DynamicBound(EndName, end, endValue), DynamicBound(StepName, step, stepValue));
    AttrNamesOfConcat3(StaticBound(StartName, start), StaticBound(EndName, end), StaticBound(StepName, step));
    assert StartName != EndName by { assert StartName[0] != EndName[0]; }
    assert StartName != StepName by { assert StartName[2] != StepName[2]; }
    assert EndName != StepName by { assert EndName[0] != StepName[0]; }
    BoundCounts(StartName, start, startValue, StartName);
    BoundCounts(StartName, start, startValue, EndName);
    BoundCounts(StartName, start, startValue, StepName);
    BoundCounts(EndName, end, endValue, StartName);
    BoundCounts(EndName, end, endValue, EndName);
    BoundCounts(EndName, end, endValue, StepName);
    BoundCounts(StepName, step, stepValue, StartName);
    BoundCounts(StepName, step, stepValue, EndName);
    BoundCounts(StepName, step, stepValue, StepName);
  }

  /** How often a name occurs among one bound's attributes and among its operands. */
  lemma BoundCounts(name: string, c: ConstArg, v: SsaValue, m: string)
    ensures multiset(AttrNames(StaticBound(name, c)))[m] == if IsNumericConst(c) && name == m then 1 else 0
    ensures multiset(OperandNames(DynamicBound(name, c, v)))[m] == if !IsNumericConst(c) && name == m then 1 else 0
  {
    if IsNumericConst(c) {
      assert AttrNames(StaticBound(name, c)) == [name];
      assert OperandNames(DynamicBound(name, c, v)) == [];
    } else {
      assert AttrNames(StaticBound(name, c)) == [];
      assert OperandNames(DynamicBound(name, c, v)) == [name];
    }
  }

  lemma NamesOfConcat3(a: seq<OperandBinding>, b: seq<OperandBinding>, c: seq<OperandBinding>)
    ensures multiset(OperandNames(a + b + c)) == multiset(OperandNames(a)) + multiset(OperandNames(b)) + multiset(OperandNames(c))
  {
    assert OperandNames(a + b + c) == OperandNames(a) + OperandNames(b) + OperandNames(c);
  }

  lemma AttrNamesOfConcat3(a: seq<AttrBinding>, b: seq<AttrBinding>, c: seq<AttrBinding>)
    ensures multiset(AttrNames(a + b + c)) == multiset(AttrNames(a)) + multiset(AttrNames(b)) + multiset(AttrNames(c))
  {
    assert AttrNames(a + b + c) == AttrNames(a) + AttrNames(b) + AttrNames(c);
  }

  // ---------------------------------------------------------------------------
  // convolution legality

  /** `isTransposedConvOp`: only a constant `true` counts as transposed. */
  predicate IsTransposedConv(transposed: ConstArg) {
    transposed.ConstBool? && transposed.b
  }

  /** `is2dConvOp`: the input has four dimensions. */
  predicate Is2dConv(inputSizes: seq<Dim>) {
    |inputSizes| == 4
  }

  /** The dynamic legality of convolution: a legal op stays in Torch for a later path. */
  predicate ConvolutionLegal(transposed: ConstArg, inputSizes: seq<Dim>) {
    !IsTransposedConv(transposed) && Is2dConv(inputSizes)
  }

  /**
    Legality read off the custom op the pattern builds: when the conversion
    succeeds, its fifth attribute is `transposed`, and the op would have been
    left in Torch exactly when that attribute is false and the input has four
    dimensions. So every convolution that is converted is transposed or not 2-D.
  */
  lemma ConvolutionLegalityFromCustomOp(input: SsaValue, weight: SsaValue, bias: Option<SsaValue>,
                                        stride: Option<seq<int>>, padding: Option<seq<int>>, dilation: Option<seq<int>>,
                                        outputPadding: Option<seq<int>>, transposed: ConstArg, groups: ConstArg,
                                        inputSizes: seq<Dim>)
    ensures var r := Packaged(ConvolutionOpName, ConvolutionOperands(input, weight, bias),
                              ConvolutionRequests(stride, padding, dilation, outputPadding, transposed, groups));
      r.Success? ==>
        |r.value.attrs| == 6 && r.value.attrs[4].name == TransposedName &&
        (ConvolutionLegal(transposed, inputSizes) <==> r.value.attrs[4].value == BoolAttr(false) && Is2dConv(inputSizes))
  {
    var operands := ConvolutionOperands(input, weight, bias);
    var qs := ConvolutionRequests(stride, padding, dilation, outputPadding, transposed, groups);
    PackagedFailsIffRejected(ConvolutionOpName, operands, qs);
    if Packaged(ConvolutionOpName, operands, qs).Success? {
      assert forall i :: 0 <= i < |qs| ==> !Rejects(qs[i]);
      AttrsInRequestOrder(qs);
      assert transposed.ConstBool? by { assert !Rejects(qs[4]); }
    }
  }
}
