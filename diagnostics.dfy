/**
  The match-failure diagnostics of the conversion patterns, one constant per
  message, spelled as the patterns report them.
*/
module Diagnostics {
  // Torch to TCP, elementwise patterns
  const BatchNormOnlyRanked: string := "only Ranked Tensor types are supported in TCP"
  const ClampNeedsBound: string := "clamp op requires at least one of min or max"
  const CopyMustBeFalse: string := "unimplemented: copy arg must be a constant with False value"
  const ExpectIntegerOutput: string := "expect output type to be signless/signed/unsigned integer"
  const ExpectedValueTensors: string := "Expected Input/Output to be ValueTensorType"
  const InputMustBeFloat: string := "Input tensor must have floating-point datatype"
  const InputMustBeIntOrFloat: string := "Input tensor must have integer or floating-point datatype"
  const InputsMustBeFloat: string := "Input tensors must have floating-point datatype"
  const InvalidCastTypes: string := "invalid input/output data type"
  const MixedSignedness: string := "Mixed signedness not supported"
  const NonBlockingMustBeFalse: string := "unimplemented: non_blocking arg must be a constant with False value"
  const NonBoolTraining: string := "non-bool training unsupported"
  const NonFloatEps: string := "non-float(double) eps unsupported"
  const OnlyFloatSupported: string := "Only floating-point datatype is supported"
  const OnlyInferenceBatchNorm: string := "only inference mode batch_norm lowering supported"
  const OnlyRanked: string := "Only Ranked Tensor types are supported in TCP"
  const SignlessDivision: string := "Signless division not supported in TCP"
  const UnsupportedMemoryFormat: string := "unimplemented: the memory format should be specified in an integer constant with none, contiguous or preserve value"
  const ZeroElementStatistics: string := "zero element running_mean and running_var not supported"

  // Torch to TCP, custom-op patterns
  const ArangeOnlyDynamic: string := "only non-constant values supported"
  const DynamicDimFromDim: string := "dynamic dim size should come from DimOp"
  const DynamicDimFromFromI64: string := "dynamic dim size should come from FromI64Op"
  const DynamicDimFromIndexCast: string := "dynamic dim size should come from IndexCastOp"
  const PinMemoryUnsupported: string := "unimplemented: pin_memory must be either None or false"
  const UnsupportedDtypeArgument: string := "Unsupported dtype argument"
  const UnsupportedScale: string := "Unsupported scale type or size"
  const UnsupportedZeroPoint: string := "Unsupported zero point type or size"
  const ViewOnlyDynamicSize: string := "only non-constant size is supported"
  const ViewSizeFromListConstruct: string := "Size must come from PrimListConstructOp"

  // TCP to Linalg
  const UnimplementedLowering: string := "unimplemented lowering in createLinalgPayloadForElementwiseOp"
}
